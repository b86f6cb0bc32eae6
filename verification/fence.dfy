/** `Fence` in the `ash` stack: a VkFence plus the list of submitted command-buffer
    batches it keeps alive ("pins"). The list grows on every successful submit and
    no operation ever shrinks it. The fence's signal state is tracked as well:
    it is created signaled and nothing in the wrapper ever resets it. */
module Fences {

  import opened Results
  import opened Vk

  /** A `CommandBuffer` wrapper; only its raw handle reaches the driver. */
  datatype CommandBuffer = CommandBuffer(handle: Handle, pool: Handle)

  /** `signaled` is the fence's state as the device holds it. */
  datatype Fence = Fence(handle: Handle, createFlags: Flags, signaled: bool, pending: seq<seq<CommandBuffer>>)

  /** The arguments of one `vkQueueSubmit` call: a single VkSubmitInfo listing raw
      command-buffer handles, guarded by `fence`; `fenceSignaled` is the fence's
      state when the call is made. */
  datatype QueueSubmit = QueueSubmit(queue: Handle, commandBuffers: seq<Handle>, fence: Handle, fenceSignaled: bool)

  /** Section 7.3 of the Vulkan 1.3 specification (VUID-vkQueueSubmit-fence-00063):
      a fence handed to `vkQueueSubmit` must be unsignaled. */
  predicate ValidSubmit(c: QueueSubmit) {
    !c.fenceSignaled
  }

  /** The arguments of `vkWaitForFences`. */
  datatype FenceWait = FenceWait(fences: seq<Handle>, waitAll: bool, timeout: u64)

  /** `Fence::new`; `created` is the answer of `vkCreateFence`. */
  function NewFence(created: Result<Handle>): (r: Result<Fence>)
    ensures r.Ok? <==> created.Ok?
    ensures r.Err? ==> r.error == created.error
    ensures r.Ok? ==> r.value.handle == created.value
    ensures r.Ok? ==> Contains(r.value.createFlags, FENCE_CREATE_SIGNALED) && r.value.signaled
    ensures r.Ok? ==> r.value.pending == []
  {
    var handle :- created;
    Ok(Fence(handle, FENCE_CREATE_SIGNALED, true, []))
  }

  /** The raw handles of a batch, in the batch's order. */
  function RawHandles(commandBuffers: seq<CommandBuffer>): (raw: seq<Handle>)
    ensures |raw| == |commandBuffers|
    ensures forall i :: 0 <= i < |raw| ==> raw[i] == commandBuffers[i].handle
  {
    if commandBuffers == [] then []
    else [commandBuffers[0].handle] + RawHandles(commandBuffers[1..])
  }

  /** A submit's effect: the fence after it, the `vkQueueSubmit` call made (none
      when an earlier step failed), and what the wrapper returns. */
  datatype SubmitOutcome = SubmitOutcome(fence: Fence, call: Option<QueueSubmit>, result: Result<()>)

  /** `Fence::submit_command_buffers`; `answer` is what `vkQueueSubmit` returned.
      The fence is passed in whatever state it is in; the device signals it again
      once the batch completes. */
  function Submit(f: Fence, queue: Handle, commandBuffers: seq<CommandBuffer>, answer: Result<()>): (r: SubmitOutcome)
    ensures r.call.Some? && r.call.value.queue == queue && r.call.value.fence == f.handle
    ensures r.call.value.fenceSignaled == f.signaled
    ensures |r.call.value.commandBuffers| == |commandBuffers|
    ensures forall i :: 0 <= i < |commandBuffers| ==> r.call.value.commandBuffers[i] == commandBuffers[i].handle
    ensures r.result.Ok? <==> answer.Ok?
    ensures answer.Ok? ==> r.fence.pending == f.pending + [commandBuffers]
    ensures answer.Err? ==> r.fence == f && r.result == Err(answer.error)
    ensures r.fence.handle == f.handle && r.fence.createFlags == f.createFlags && r.fence.signaled == f.signaled
  {
    var call := QueueSubmit(queue, RawHandles(commandBuffers), f.handle, f.signaled);
    match answer
    case Err(e) => SubmitOutcome(f, Some(call), Err(e))
    case Ok(_) => SubmitOutcome(f.(pending := f.pending + [commandBuffers]), Some(call), Ok(()))
  }

  /** A wait's effect. `blocked` records that the fence was unsignaled when the
      wait began, so a successful return means the device signaled it: the work
      it guards has finished. A wait on a signaled fence returns at once and
      shows nothing about that work. */
  datatype WaitOutcome = WaitOutcome(fence: Fence, call: FenceWait, blocked: bool, result: Result<()>)

  /** `Fence::wait_for_finished`: waits for all of `[handle]` with no timeout;
      `answer` is what `vkWaitForFences` returned. The pin list is left as it is. */
  function WaitForFinished(f: Fence, answer: Result<()>): (r: WaitOutcome)
    ensures r.call.fences == [f.handle] && r.call.waitAll && r.call.timeout == U64_MAX
    ensures r.fence.pending == f.pending && r.fence.handle == f.handle && r.fence.createFlags == f.createFlags
    ensures r.blocked <==> !f.signaled
    ensures r.result.Ok? <==> answer.Ok?
    ensures answer.Ok? ==> r.fence.signaled
    ensures answer.Err? ==> r.fence == f && r.result.error == answer.error
  {
    WaitOutcome(if answer.Ok? then f.(signaled := true) else f,
                FenceWait([f.handle], true, U64_MAX), !f.signaled,
                if answer.Ok? then Ok(()) else Err(answer.error))
  }

  /** A call made on a fence, with the driver's answer to it. */
  datatype FenceCall =
    | SubmitCall(queue: Handle, commandBuffers: seq<CommandBuffer>, answer: Result<()>)
    | WaitCall(answer: Result<()>)

  function Apply(f: Fence, c: FenceCall): Fence {
    match c
    case SubmitCall(q, cbs, a) => Submit(f, q, cbs, a).fence
    case WaitCall(a) => WaitForFinished(f, a).fence
  }

  /** The fence after a sequence of calls, first to last. */
  function Replay(f: Fence, calls: seq<FenceCall>): Fence
    decreases |calls|
  {
    if calls == [] then f else Replay(Apply(f, calls[0]), calls[1..])
  }

  /** The batches of the calls that were successful submits, in call order. */
  function AcceptedBatches(calls: seq<FenceCall>): seq<seq<CommandBuffer>>
    decreases |calls|
  {
    if calls == [] then []
    else
      var head := if calls[0].SubmitCall? && calls[0].answer.Ok? then [calls[0].commandBuffers] else [];
      head + AcceptedBatches(calls[1..])
  }

  /** Pinning: after any sequence of submits and waits, the pin list is the
      original list followed by exactly the batches that were accepted, in order;
      nothing is ever removed, and waiting adds nothing. */
  lemma {:induction false} PendingOnlyGrows(f: Fence, calls: seq<FenceCall>)
    ensures Replay(f, calls).pending == f.pending + AcceptedBatches(calls)
    ensures Replay(f, calls).handle == f.handle
    decreases |calls|
  {
    if calls != [] {
      var g := Apply(f, calls[0]);
      PendingOnlyGrows(g, calls[1..]);
      var head := if calls[0].SubmitCall? && calls[0].answer.Ok? then [calls[0].commandBuffers] else [];
      assert g.pending == f.pending + head;
      assert AcceptedBatches(calls) == head + AcceptedBatches(calls[1..]);
      assert f.pending + head + AcceptedBatches(calls[1..]) == f.pending + (head + AcceptedBatches(calls[1..]));
    }
  }

  /** A batch accepted by a submit is still pinned after any later calls. */
  lemma SubmittedBatchStaysPinned(f: Fence, queue: Handle, batch: seq<CommandBuffer>, later: seq<FenceCall>)
    ensures var g := Replay(f, [SubmitCall(queue, batch, Ok(()))] + later);
      |g.pending| > |f.pending| && g.pending[|f.pending|] == batch
      && g.pending[..|f.pending|] == f.pending
  {
    var calls := [SubmitCall(queue, batch, Ok(()))] + later;
    PendingOnlyGrows(f, calls);
    assert calls[1..] == later;
    assert AcceptedBatches(calls) == [batch] + AcceptedBatches(later);
  }

  /** Nothing the wrapper offers resets the fence: once signaled, it stays
      signaled through any sequence of submits and waits. */
  lemma {:induction false} SignaledFenceStaysSignaled(f: Fence, calls: seq<FenceCall>)
    requires f.signaled
    ensures Replay(f, calls).signaled
    decreases |calls|
  {
    if calls != [] {
      SignaledFenceStaysSignaled(Apply(f, calls[0]), calls[1..]);
    }
  }

  /** As written, whatever calls came before, every submit on a fence from
      `Fence::new` passes a signaled fence, which the driver must not be given,
      and the wait that follows returns without showing that the batch finished. */
  lemma SubmitsSeeSignaledFence(created: Result<Handle>, earlier: seq<FenceCall>, queue: Handle,
                                batch: seq<CommandBuffer>, submitted: Result<()>, waited: Result<()>)
    requires created.Ok?
    ensures var f := Replay(NewFence(created).value, earlier);
            var s := Submit(f, queue, batch, submitted);
      && !ValidSubmit(s.call.value)
      && !WaitForFinished(s.fence, waited).blocked
  {
    SignaledFenceStaysSignaled(NewFence(created).value, earlier);
  }

  /** The submit the fence protocol evidently intends: `vkResetFences` on this
      fence (its error propagated), then the same submit. */
  function SubmitAfterReset(f: Fence, queue: Handle, commandBuffers: seq<CommandBuffer>,
                            reset: Result<()>, answer: Result<()>): (r: SubmitOutcome)
    ensures reset.Err? ==> r == SubmitOutcome(f, None, Err(reset.error))
    ensures reset.Ok? ==> r.call.Some? && ValidSubmit(r.call.value) && !r.fence.signaled
    ensures reset.Ok? ==> (r.result.Ok? <==> answer.Ok?)
    ensures reset.Ok? && answer.Ok? ==> r.fence.pending == f.pending + [commandBuffers]
    ensures reset.Ok? && answer.Err? ==> r.fence.pending == f.pending && r.result == Err(answer.error)
  {
    if reset.Err? then SubmitOutcome(f, None, Err(reset.error))
    else Submit(f.(signaled := false), queue, commandBuffers, answer)
  }

  /** With the reset, a successful wait after a successful submit had to wait
      for the device's signal: it returns only once the batch has finished, and
      the fence is then signaled again. */
  lemma ResetSubmitThenWaitSeesCompletion(f: Fence, queue: Handle, batch: seq<CommandBuffer>,
                                          reset: Result<()>, submitted: Result<()>, waited: Result<()>)
    requires reset.Ok? && submitted.Ok? && waited.Ok?
    ensures var s := SubmitAfterReset(f, queue, batch, reset, submitted);
            var w := WaitForFinished(s.fence, waited);
      && s.result.Ok? && ValidSubmit(s.call.value)
      && w.blocked && w.result.Ok? && w.fence.signaled
      && w.fence.pending == f.pending + [batch]
  {
  }
}
