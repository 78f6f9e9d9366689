/**
 * The deferred release queue: teardown actions are registered as the
 * resources they free are created, and are run newest-first on `Flush`,
 * because a later resource may depend on an earlier one (an image view on its
 * image, every resource on the allocator).
 */
module DeletionQueues {

  /** The teardown actions the engine registers, as tags rather than closures. */
  datatype Action =
    | DestroyAllocator           // vmaDestroyAllocator, registered by init_vulkan
    | DestroyDrawImage           // the draw image's view and image, registered by create_swapchain
    | DestroyGradientPipeline    // the gradient pipeline layout and pipeline, registered by init_background_pipelines
    | FrameResource(id: nat)     // a resource whose lifetime is one frame, registered on a slot's queue

  /** `s` back to front: element k of the result is element |s|-1-k of `s`. */
  function Reversed<T>(s: seq<T>): (r: seq<T>)
    ensures |r| == |s|
    ensures forall k :: 0 <= k < |s| ==> r[k] == s[|s| - 1 - k]
  {
    if s == [] then [] else Reversed(s[1..]) + [s[0]]
  }

  /** Running the queue backwards runs each pending action exactly once. */
  lemma {:induction false} ReversedIsPermutation<T>(s: seq<T>)
    ensures multiset(Reversed(s)) == multiset(s)
  {
    if s != [] {
      ReversedIsPermutation(s[1..]);
      assert s == [s[0]] + s[1..];
    }
  }

  /** The action pushed last is the one that runs first, followed by the older ones in reverse. */
  lemma ReversedPush<T>(s: seq<T>, x: T)
    ensures Reversed(s + [x]) == [x] + Reversed(s)
  {
    var r, t := Reversed(s + [x]), [x] + Reversed(s);
    assert |r| == |t|;
    forall k | 0 <= k < |r| ensures r[k] == t[k] {
      if k > 0 {
        assert t[k] == Reversed(s)[k - 1];
      }
    }
  }

  /** A queue of pending teardown actions (a deque appended at the back). */
  class DeletionQueue {
    var deletors: seq<Action>

    constructor ()
      ensures deletors == []
    {
      deletors := [];
    }

    /** Registers one more action, behind every action already registered. */
    method PushFunction(action: Action)
      modifies this
      ensures deletors == old(deletors) + [action]
    {
      deletors := deletors + [action];
    }

    /**
     * Runs every pending action, newest first, and empties the queue. The
     * actions run are returned in the order they ran.
     */
    method Flush() returns (executed: seq<Action>)
      modifies this
      ensures executed == Reversed(old(deletors))
      ensures deletors == []
    {
      executed := [];
      var i := |deletors|;
      while i > 0
        invariant 0 <= i <= |deletors|
        invariant executed == Reversed(deletors[i..])
      {
        i := i - 1;
        assert deletors[i..][1..] == deletors[i + 1..];
        executed := executed + [deletors[i]];
      }
      assert deletors[0..] == deletors;
      deletors := [];
    }
  }

  /**
   * Start-up registers the allocator, then the draw image, then the pipeline;
   * a flush runs them pipeline first and allocator last, and a second flush
   * right after runs nothing.
   */
  method PushFlushScenario() returns (first: seq<Action>, second: seq<Action>)
    ensures first == [DestroyGradientPipeline, DestroyDrawImage, DestroyAllocator]
    ensures second == []
  {
    var queue := new DeletionQueue();
    queue.PushFunction(DestroyAllocator);
    queue.PushFunction(DestroyDrawImage);
    queue.PushFunction(DestroyGradientPipeline);
    first := queue.Flush();
    second := queue.Flush();
  }
}
