/** Stimuli and the buffer they queue in (`krakey/models/stimulus.py`,
    `krakey/runtime/stimuli/stimulus_buffer.py`). */
module Stimuli {
  import opened Sorting

  /** `id` is the object's identity. The mutable retry counter in its metadata is kept by the runtime,
      in a map from `id`. */
  datatype Stimulus = Stimulus(
    id: nat, kind: string, source: string, content: string, time: int, adrenalin: bool)

  function Earlier(): (Stimulus, Stimulus) -> bool {
    (a: Stimulus, b: Stimulus) => a.time <= b.time
  }

  class StimulusBuffer {
    var queue: seq<Stimulus>
    var recalledUpTo: nat
    var adrenalinSet: bool

    predicate Valid()
      reads this
    {
      recalledUpTo <= |queue| && FlagIsRight()
    }

    /** The adrenalin event is set exactly while something urgent waits. */
    predicate FlagIsRight()
      reads this`queue, this`adrenalinSet
    {
      adrenalinSet <==> exists s :: s in queue && s.adrenalin
    }

    constructor ()
      ensures Valid() && queue == []
    {
      queue, recalledUpTo, adrenalinSet := [], 0, false;
    }

    method Push(s: Stimulus)
      requires Valid()
      modifies this
      ensures Valid() && queue == old(queue) + [s] && recalledUpTo == old(recalledUpTo)
    {
      queue := queue + [s];
      if s.adrenalin {
        adrenalinSet := true;
      }
    }

    /** All waiting stimuli, oldest timestamp first, equal timestamps in arrival order. */
    method Drain() returns (items: seq<Stimulus>)
      requires Valid()
      modifies this
      ensures Valid() && queue == [] && recalledUpTo == 0
      ensures items == SortBy(Earlier(), old(queue))
      ensures multiset(items) == multiset(old(queue)) && SortedBy(Earlier(), items)
    {
      items := SortBy(Earlier(), queue);
      SortBySorted(Earlier(), queue);
      queue, recalledUpTo, adrenalinSet := [], 0, false;
    }

    method PeekUnrecalled() returns (unseen: seq<Stimulus>)
      requires Valid()
      modifies this`recalledUpTo
      ensures Valid() && unseen == queue[old(recalledUpTo)..] && recalledUpTo == |queue|
    {
      unseen := queue[recalledUpTo..];
      recalledUpTo := |queue|;
    }
  }
}
