/** EventSystem's platform-independent state: the table of frame counters
    (two layers of 256 slots, each empty or holding a counter), the count of
    running realtime tasks, and the two generic settings kept in
    EventSystemGlobals. */
module Events {
  import opened Wrappers

  /** Valid frame-counter layers are 0 and 1. */
  const LayerCount: int := 2
  /** Valid frame-counter indices are 0 through 255. */
  const CounterCount: int := 256

  /** The exceptions of the frame-counter accessors. */
  datatype FrameCounterError =
    | IllegalLayer            // "Illegal frame counter layer!"
    | CounterOutOfRange       // "Frame Counter index out of range!"
    | UninitializedCounter    // "Trying to get an uninitialized frame counter!"

  /** Whether (layer, counter) names one of the 2 x 256 slots. */
  predicate ValidSlot(layer: int, counter: int)
  {
    0 <= layer < LayerCount && 0 <= counter < CounterCount
  }

  /** EventSystem::checkLayerAndCounter: the layer is checked first, then the
      counter index; None means both are in range. */
  function CheckLayerAndCounter(layer: int, counter: int): (r: Option<FrameCounterError>)
    ensures r.None? <==> ValidSlot(layer, counter)
    ensures r == Some(IllegalLayer) <==> !(0 <= layer < LayerCount)
    ensures r == Some(CounterOutOfRange) <==> 0 <= layer < LayerCount && !(0 <= counter < CounterCount)
  {
    if layer < 0 || layer > 1 then Some(IllegalLayer)
    else if counter < 0 || counter > 255 then Some(CounterOutOfRange)
    else None
  }

  /** The flat, row-major offset C computes for `a[row][col]` when the rows
      of `a` hold `width` elements; the offset lies within row `row` only
      when the column is in range. */
  function FlatOffset(width: int, row: int, col: int): (offset: int)
    ensures 0 <= col < width ==> row * width <= offset < (row + 1) * width
    ensures col == width ==> offset == (row + 1) * width
  {
    row * width + col
  }

  /** The slot table as the header declares it, `frame_counters_[255][2]`,
      indexed `[layer][counter]` the way the implementation indexes it: the
      slot exists only for layer < 255 and counter < 2. */
  predicate DeclaredArrayHasSlot(layer: int, counter: int)
  {
    0 <= layer < 255 && 0 <= counter < 2
  }

  /** Counter index 2 on layer 0 passes checkLayerAndCounter but lies outside
      the header's `[255][2]` array when indexed `[layer][counter]`: with rows
      of two elements, its flat offset is that of slot (1, 0), which also
      passes the check, so the two counters share one element. */
  lemma DeclaredArrayTooSmall()
    ensures CheckLayerAndCounter(0, 2).None? && !DeclaredArrayHasSlot(0, 2)
    ensures CheckLayerAndCounter(1, 0).None? && DeclaredArrayHasSlot(1, 0)
    ensures FlatOffset(2, 0, 2) == FlatOffset(2, 1, 0)
  {
  }

  /** The layout the checks are written for, two rows of 256 counters:
      every slot that passes checkLayerAndCounter has its own element of the
      2 x 256 table, and two different checked slots never share one. */
  lemma CheckedSlotsHaveDistinctElements(layer: int, counter: int, layer': int, counter': int)
    requires CheckLayerAndCounter(layer, counter).None? && CheckLayerAndCounter(layer', counter').None?
    ensures 0 <= FlatOffset(CounterCount, layer, counter) < LayerCount * CounterCount
    ensures FlatOffset(CounterCount, layer, counter) == FlatOffset(CounterCount, layer', counter') <==>
            layer == layer' && counter == counter'
  {
  }

  /** EventSystemGlobals: the two generic values the game controls with the
      Generic1 and Generic2 functions. */
  class EventSystemGlobals {
    var generic1: int
    var generic2: int

    constructor (g1: int, g2: int)
      ensures generic1 == g1 && generic2 == g2
    {
      generic1, generic2 := g1, g2;
    }

    /** The serialize member: generic1 is written first, then generic2. */
    function Serialize(): (archive: seq<int>)
      reads this
      ensures |archive| == 2 && archive[0] == generic1 && archive[1] == generic2
    {
      [generic1, generic2]
    }

    /** The load direction of serialize: generic1 and then generic2 are read
        from the front of the archive, one after the other. An archive that
        ends early fails the read that finds it empty; a value read before
        that stays stored. */
    method Load(archive: seq<int>) returns (rest: Option<seq<int>>)
      modifies this
      ensures |archive| == 0 ==> rest.None? && generic1 == old(generic1) && generic2 == old(generic2)
      ensures |archive| == 1 ==> rest.None? && generic1 == archive[0] && generic2 == old(generic2)
      ensures |archive| >= 2 ==> rest == Some(archive[2..]) && generic1 == archive[0] && generic2 == archive[1]
    {
      if |archive| == 0 {
        return None;
      }
      generic1 := archive[0];
      if |archive| == 1 {
        return None;
      }
      generic2 := archive[1];
      rest := Some(archive[2..]);
    }
  }

  /** The state of an EventSystem. `Counter` stands for FrameCounter, whose
      definition is not part of this model. */
  class EventSystem<Counter> {
    /** The filled slots of the frame-counter table, keyed by (layer, counter);
        an absent key is an empty (null) slot. */
    var frameCounters: map<(int, int), Counter>
    var numberOfRealtimeTasks: int
    const globals: EventSystemGlobals

    /** Only slots of the 2 x 256 table are ever filled. No contract relies
        on it: it is the invariant the setters keep, and states that the
        table is the intended 2 x 256 one rather than the declared
        `[255][2]` array. */
    ghost predicate Valid()
      reads this
    {
      forall key :: key in frameCounters ==> ValidSlot(key.0, key.1)
    }

    /** A new event system: no frame counters, no realtime tasks, and the
        globals as read from the game's configuration (`g1`, `g2`). */
    constructor (g1: int, g2: int)
      ensures Valid()
      ensures frameCounters == map[] && numberOfRealtimeTasks == 0
      ensures fresh(globals) && globals.generic1 == g1 && globals.generic2 == g2
    {
      frameCounters := map[];
      numberOfRealtimeTasks := 0;
      globals := new EventSystemGlobals(g1, g2);
    }

    /** EventSystem::setFrameCounter: replaces slot (layer, counter) with
        `counter` (None empties it) and nothing else; throws, changing nothing,
        when the slot is out of range. */
    method SetFrameCounter(layer: int, counter: int, c: Option<Counter>) returns (error: Option<FrameCounterError>)
      requires Valid()
      modifies this`frameCounters
      ensures Valid()
      ensures error == CheckLayerAndCounter(layer, counter)
      ensures error.Some? ==> frameCounters == old(frameCounters)
      ensures error.None? && c.Some? ==> frameCounters == old(frameCounters)[(layer, counter) := c.value]
      ensures error.None? && c.None? ==> frameCounters == old(frameCounters) - {(layer, counter)}
    {
      error := CheckLayerAndCounter(layer, counter);
      if error.Some? {
        return;
      }
      match c
      case Some(v) => frameCounters := frameCounters[(layer, counter) := v];
      case None => frameCounters := frameCounters - {(layer, counter)};
    }

    /** EventSystem::getFrameCounter: the counter in slot (layer, counter);
        throws when the slot is out of range or empty. */
    method GetFrameCounter(layer: int, counter: int) returns (r: Result<Counter, FrameCounterError>)
      ensures CheckLayerAndCounter(layer, counter).Some? ==> r == Failure(CheckLayerAndCounter(layer, counter).value)
      ensures ValidSlot(layer, counter) && (layer, counter) !in frameCounters ==> r == Failure(UninitializedCounter)
      ensures r.Success? <==> ValidSlot(layer, counter) && (layer, counter) in frameCounters
      ensures r.Success? ==> r.value == frameCounters[(layer, counter)]
    {
      var check := CheckLayerAndCounter(layer, counter);
      if check.Some? {
        return Failure(check.value);
      }
      if (layer, counter) !in frameCounters {
        return Failure(UninitializedCounter);
      }
      r := Success(frameCounters[(layer, counter)]);
    }

    /** EventSystem::frameCounterExists: whether slot (layer, counter) holds a
        counter; throws when the slot is out of range. */
    method FrameCounterExists(layer: int, counter: int) returns (r: Result<bool, FrameCounterError>)
      ensures CheckLayerAndCounter(layer, counter).Some? ==> r == Failure(CheckLayerAndCounter(layer, counter).value)
      ensures ValidSlot(layer, counter) ==> r == Success((layer, counter) in frameCounters)
    {
      var check := CheckLayerAndCounter(layer, counter);
      if check.Some? {
        return Failure(check.value);
      }
      r := Success((layer, counter) in frameCounters);
    }

    /** EventSystem::beginRealtimeTask. */
    method BeginRealtimeTask()
      modifies this`numberOfRealtimeTasks
      ensures numberOfRealtimeTasks == old(numberOfRealtimeTasks) + 1
      ensures old(CanBeNice()) ==> !CanBeNice()
    {
      numberOfRealtimeTasks := numberOfRealtimeTasks + 1;
    }

    /** EventSystem::endRealtimeTask. */
    method EndRealtimeTask()
      modifies this`numberOfRealtimeTasks
      ensures numberOfRealtimeTasks == old(numberOfRealtimeTasks) - 1
    {
      numberOfRealtimeTasks := numberOfRealtimeTasks - 1;
    }

    /** EventSystem::canBeNice: the system may idle only when no realtime
        task is running. */
    predicate CanBeNice()
      reads this
      ensures CanBeNice() <==> numberOfRealtimeTasks == 0
    {
      numberOfRealtimeTasks == 0
    }

    /** EventSystem::globals: the struct the generic accessors read and write. */
    function Globals(): (g: EventSystemGlobals)
      reads this
      ensures g == globals
    {
      globals
    }

    /** EventSystem::setGeneric1. */
    method SetGeneric1(v: int)
      modifies globals
      ensures globals.generic1 == v && globals.generic2 == old(globals.generic2)
    {
      globals.generic1 := v;
    }

    /** EventSystem::generic1: the first value the globals serialise. */
    function Generic1(): (v: int)
      reads this, globals
      ensures v == Globals().Serialize()[0]
    {
      globals.generic1
    }

    /** EventSystem::setGeneric2. */
    method SetGeneric2(v: int)
      modifies globals
      ensures globals.generic2 == v && globals.generic1 == old(globals.generic1)
    {
      globals.generic2 := v;
    }

    /** EventSystem::generic2: the second value the globals serialise. */
    function Generic2(): (v: int)
      reads this, globals
      ensures v == Globals().Serialize()[1]
    {
      globals.generic2
    }
  }

  /** Storing a counter makes frameCounterExists true and getFrameCounter
      return it; storing null makes frameCounterExists false and
      getFrameCounter throw; another slot answers as it did before. */
  method SetThenQuery<Counter>(es: EventSystem<Counter>, layer: int, counter: int, c: Option<Counter>,
                               otherLayer: int, otherCounter: int)
    returns (present: Result<bool, FrameCounterError>, got: Result<Counter, FrameCounterError>,
             otherBefore: Result<bool, FrameCounterError>, otherAfter: Result<bool, FrameCounterError>)
    requires es.Valid() && ValidSlot(layer, counter)
    requires (otherLayer, otherCounter) != (layer, counter)
    modifies es
    ensures es.Valid()
    ensures present == Success(c.Some?)
    ensures c.Some? ==> got == Success(c.value)
    ensures c.None? ==> got == Failure(UninitializedCounter)
    ensures otherAfter == otherBefore
  {
    otherBefore := es.FrameCounterExists(otherLayer, otherCounter);
    var err := es.SetFrameCounter(layer, counter, c);
    present := es.FrameCounterExists(layer, counter);
    got := es.GetFrameCounter(layer, counter);
    otherAfter := es.FrameCounterExists(otherLayer, otherCounter);
  }

  /** A realtime task that begins and ends leaves the count, and so canBeNice,
      as it was. While it runs, canBeNice holds only when the count was -1
      before it began (after an unmatched endRealtimeTask); in particular it
      is false whenever no other task was running. */
  method BeginEndRestores<Counter>(es: EventSystem<Counter>) returns (niceWhileRunning: bool)
    modifies es
    ensures niceWhileRunning == (old(es.numberOfRealtimeTasks) == -1)
    ensures old(es.CanBeNice()) ==> !niceWhileRunning
    ensures es.numberOfRealtimeTasks == old(es.numberOfRealtimeTasks)
    ensures es.CanBeNice() == old(es.CanBeNice())
  {
    es.BeginRealtimeTask();
    niceWhileRunning := es.CanBeNice();
    es.EndRealtimeTask();
  }

  /** The generic values are separate fields reached through globals():
      each setter is seen by its getter and leaves the other value alone, and
      serialize then writes them in the order generic1, generic2. */
  method GenericsRoundTrip<Counter>(es: EventSystem<Counter>, v1: int, v2: int)
    modifies es.globals
    ensures es.Generic1() == v1 && es.Generic2() == v2
    ensures es.Globals().Serialize() == [v1, v2]
  {
    es.SetGeneric1(v1);
    assert es.Generic1() == v1;
    es.SetGeneric2(v2);
    assert es.Generic1() == v1 && es.Generic2() == v2;
  }

  /** Loading what serialize wrote restores both generic values. */
  method SerializeLoadRoundTrip(from: EventSystemGlobals, to: EventSystemGlobals, tail: seq<int>)
    modifies to
    ensures to.generic1 == from.generic1 && to.generic2 == from.generic2
  {
    var rest := to.Load(from.Serialize() + tail);
    assert rest == Some(tail);
  }
}
