/** The life of output items in a Responses stream, as an automaton over its events, and
    what a trace accepted by it guarantees. */
module ResponsesTrace {
  import opened Basics
  import opened ResponsesDto

  /** added: the announced items, in order; done: the indexes of the completed ones. */
  datatype Cursor = Cursor(created: bool, ended: bool, added: seq<Item>, done: set<nat>)

  const START := Cursor(false, false, [], {})

  predicate IsTerminal(e: StreamEvent) { e.eventType.Completed? || e.eventType.Incomplete? || e.eventType.Failed? }

  /** Two views of one item. */
  predicate SameItem(a: Item, b: Item) { a.itemType == b.itemType && a.id == b.id }

  predicate KnownIndex(c: Cursor, e: StreamEvent) { e.outputIndex.Some? && 0 <= e.outputIndex.value < |c.added| }

  predicate AllDone(c: Cursor) { forall k :: 0 <= k < |c.added| ==> k in c.done }

  /** Items are announced under consecutive indexes, every other event about an item
      comes after its announcement, an item is completed once, and the terminal event
      finds all items completed and lists them as announced. */
  predicate Allowed(c: Cursor, e: StreamEvent) {
    && !c.ended
    && (e.eventType.Created? <==> !c.created)
    && (e.eventType.ItemAdded? ==> e.outputIndex == Some(|c.added|) && e.item.Some?)
    && (e.eventType.ItemDone? ==>
          KnownIndex(c, e) && e.outputIndex.value !in c.done && e.item.Some?
            && SameItem(e.item.value, c.added[e.outputIndex.value]))
    && (e.outputIndex.Some? && !e.eventType.ItemAdded? ==> KnownIndex(c, e))
    && (IsTerminal(e) ==>
          && AllDone(c) && e.response.Some? && |e.response.value.output| == |c.added|
          && forall k :: 0 <= k < |c.added| ==> SameItem(e.response.value.output[k], c.added[k]))
  }

  function Advance(c: Cursor, e: StreamEvent): Cursor {
    match e.eventType
    case Created => c.(created := true)
    case ItemAdded => if e.item.Some? then c.(added := c.added + [e.item.value]) else c
    case ItemDone => if e.outputIndex.Some? && e.outputIndex.value >= 0 then c.(done := c.done + {e.outputIndex.value})
      else c
    case Completed => c.(ended := true)
    case Incomplete => c.(ended := true)
    case Failed => c.(ended := true)
    case _ => c
  }

  function After(c: Cursor, trace: seq<StreamEvent>): Cursor {
    if trace == [] then c else Advance(After(c, trace[..|trace| - 1]), trace[|trace| - 1])
  }

  predicate Follows(c: Cursor, trace: seq<StreamEvent>) {
    trace == [] || (Follows(c, trace[..|trace| - 1]) && Allowed(After(c, trace[..|trace| - 1]), trace[|trace| - 1]))
  }

  predicate Complete(trace: seq<StreamEvent>) { Follows(START, trace) && After(START, trace).ended }

  lemma {:induction false} Concatenation(c: Cursor, a: seq<StreamEvent>, b: seq<StreamEvent>)
    ensures After(c, a + b) == After(After(c, a), b)
    ensures Follows(c, a + b) <==> Follows(c, a) && Follows(After(c, a), b)
  {
    if b == [] {
      assert a + b == a;
    } else {
      assert (a + b)[..|a + b| - 1] == a + b[..|b| - 1];
      Concatenation(c, a, b[..|b| - 1]);
    }
  }

  // ---- what acceptance means ------------------------------------------------------------

  function Added(trace: seq<StreamEvent>): seq<StreamEvent> {
    if trace == [] then [] else
      Added(trace[..|trace| - 1]) + if trace[|trace| - 1].eventType.ItemAdded? then [trace[|trace| - 1]] else []
  }

  /** How often the item at an index is completed. */
  function Completions(trace: seq<StreamEvent>, index: int): nat {
    if trace == [] then 0 else
      var e := trace[|trace| - 1];
      Completions(trace[..|trace| - 1], index) + if e.eventType.ItemDone? && e.outputIndex == Some(index) then 1 else 0
  }

  lemma {:induction false} AddedTells(trace: seq<StreamEvent>)
    requires Follows(START, trace)
    ensures var c := After(START, trace);
            && |Added(trace)| == |c.added|
            && forall k :: 0 <= k < |c.added| ==>
                  Added(trace)[k].outputIndex == Some(k) && Added(trace)[k].item == Some(c.added[k])
  {
    if trace != [] {
      AddedTells(trace[..|trace| - 1]);
    }
  }

  lemma {:induction false} DoneTells(trace: seq<StreamEvent>, index: nat)
    requires Follows(START, trace)
    ensures var c := After(START, trace);
            && Completions(trace, index) == (if index in c.done then 1 else 0)
            && (index in c.done ==> index < |c.added|)
  {
    if trace != [] {
      DoneTells(trace[..|trace| - 1], index);
    }
  }

  lemma {:induction false} FrameTells(trace: seq<StreamEvent>)
    requires Follows(START, trace)
    ensures var c := After(START, trace);
            && (c.created <==> trace != []) && (trace != [] ==> trace[0].eventType.Created?)
            && (forall k :: 0 < k < |trace| ==> !trace[k].eventType.Created?)
            && (forall k :: 0 <= k < |trace| && IsTerminal(trace[k]) ==> c.ended && k == |trace| - 1)
            && (c.ended ==> trace != [] && IsTerminal(trace[|trace| - 1]) && AllDone(c))
  {
    if trace != [] {
      FrameTells(trace[..|trace| - 1]);
    }
  }

  /** In a complete stream response.created comes first and only once, and one terminal
      event comes last. */
  lemma CompleteFrame(trace: seq<StreamEvent>)
    requires Complete(trace)
    ensures |trace| >= 2 && trace[0].eventType.Created? && IsTerminal(trace[|trace| - 1])
    ensures forall k :: 0 <= k < |trace| ==>
              (trace[k].eventType.Created? ==> k == 0) && (IsTerminal(trace[k]) ==> k == |trace| - 1)
  {
    FrameTells(trace);
  }

  /** The k-th announced item has index k, is completed exactly once, and is the k-th item
      of the terminal response. */
  lemma ItemsLive(trace: seq<StreamEvent>, k: nat)
    requires Complete(trace)
    ensures var output := trace[|trace| - 1].response;
            && trace != [] && output.Some? && |output.value.output| == |Added(trace)|
            && (k < |Added(trace)| ==>
                  && Added(trace)[k].outputIndex == Some(k) && Added(trace)[k].item.Some?
                  && Completions(trace, k) == 1
                  && SameItem(output.value.output[k], Added(trace)[k].item.value))
            && (k >= |Added(trace)| ==> Completions(trace, k) == 0)
  {
    FrameTells(trace);
    AddedTells(trace);
    DoneTells(trace, k);
  }

  /** An event about an item comes after the item's announcement. */
  lemma AboutAnnounced(trace: seq<StreamEvent>, k: nat)
    requires Follows(START, trace) && k < |trace| && trace[k].outputIndex.Some? && !trace[k].eventType.ItemAdded?
    ensures 0 <= trace[k].outputIndex.value < |Added(trace[..k])|
  {
    assert trace == trace[..k + 1] + trace[k + 1..];
    Concatenation(START, trace[..k + 1], trace[k + 1..]);
    assert trace[..k + 1][..k] == trace[..k];
    AddedTells(trace[..k]);
  }
}
