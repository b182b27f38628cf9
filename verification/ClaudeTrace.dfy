/** The Claude Messages stream grammar, as an automaton over events that both
    converters into the Claude dialect are measured against, and what a trace
    accepted by it guarantees. */
module ClaudeTrace {
  import opened Basics

  type Citation = string

  datatype Kind = TextKind | ThinkingKind | ToolKind

  datatype Content = TextBlock | ThinkingBlock | ToolBlock(id: string, name: string) {
    function BlockKind(): Kind {
      match this
      case TextBlock => TextKind
      case ThinkingBlock => ThinkingKind
      case ToolBlock(_, _) => ToolKind
    }
  }

  datatype Delta =
    | TextDelta(text: string)
    | ThinkingDelta(text: string)
    | InputJsonDelta(text: string)
    | CitationDelta(citation: Citation)
    | SignatureDelta
  {
    /** The block kind a delta belongs to. */
    function BlockKind(): Kind {
      match this
      case TextDelta(_) => TextKind
      case CitationDelta(_) => TextKind
      case ThinkingDelta(_) => ThinkingKind
      case SignatureDelta => ThinkingKind
      case InputJsonDelta(_) => ToolKind
    }

    /** The characters a delta delivers to its block. */
    function Payload(): string {
      if TextDelta? || ThinkingDelta? || InputJsonDelta? then text else ""
    }
  }

  datatype Event =
    | MessageStart
    | BlockStart(index: int, content: Content)
    | BlockDelta(index: int, delta: Delta)
    | BlockStop(index: int)
    | MessageDelta(stopReason: string)
    | MessageStop

  datatype Phase = Fresh | Streaming | Delivered | Ended

  /** open: the started, unstopped blocks; closed: the stopped ones; sealed: a
      thinking block whose signature was sent and which must be stopped next. */
  datatype Cursor = Cursor(phase: Phase, open: map<int, Kind>, closed: set<int>, sealed: set<int>)

  const START := Cursor(Fresh, map[], {}, {})

  /** signed says whether thinking blocks must be signed before they are stopped. */
  predicate Allowed(signed: bool, c: Cursor, e: Event) {
    match e
    case MessageStart => c.phase == Fresh
    case BlockStart(i, _) => c.phase == Streaming && c.sealed == {} && i !in c.open && i !in c.closed
    case BlockDelta(i, d) =>
      && c.phase == Streaming && c.sealed == {} && i in c.open && c.open[i] == d.BlockKind()
      && (d.SignatureDelta? ==> signed)
    case BlockStop(i) =>
      && c.phase == Streaming && i in c.open
      && c.sealed == (if signed && c.open[i] == ThinkingKind then {i} else {})
    case MessageDelta(_) => c.phase == Streaming && c.open == map[] && c.sealed == {}
    case MessageStop => c.phase == Delivered
  }

  function Advance(c: Cursor, e: Event): Cursor {
    match e
    case MessageStart => c.(phase := Streaming)
    case BlockStart(i, content) => c.(open := c.open[i := content.BlockKind()])
    case BlockDelta(i, d) => if d.SignatureDelta? then c.(sealed := {i}) else c
    case BlockStop(i) => c.(open := c.open - {i}, closed := c.closed + {i}, sealed := {})
    case MessageDelta(_) => c.(phase := Delivered)
    case MessageStop => c.(phase := Ended)
  }

  /** Every event is allowed where it stands. */
  predicate Follows(signed: bool, c: Cursor, trace: seq<Event>)
    decreases trace
  {
    trace == [] || (Allowed(signed, c, trace[0]) && Follows(signed, Advance(c, trace[0]), trace[1..]))
  }

  function After(c: Cursor, trace: seq<Event>): Cursor
    decreases trace
  {
    if trace == [] then c else After(Advance(c, trace[0]), trace[1..])
  }

  /** A whole stream: allowed throughout, and ended by message_stop. */
  predicate Complete(signed: bool, trace: seq<Event>) {
    Follows(signed, START, trace) && After(START, trace).phase == Ended
  }

  lemma {:induction false} Concatenation(signed: bool, c: Cursor, a: seq<Event>, b: seq<Event>)
    ensures After(c, a + b) == After(After(c, a), b)
    ensures Follows(signed, c, a + b) <==> Follows(signed, c, a) && Follows(signed, After(c, a), b)
    decreases a
  {
    if a == [] {
      assert a + b == b;
    } else {
      assert (a + b)[0] == a[0] && (a + b)[1..] == a[1..] + b;
      Concatenation(signed, Advance(c, a[0]), a[1..], b);
    }
  }

  lemma One(signed: bool, c: Cursor, e: Event)
    ensures After(c, [e]) == Advance(c, e)
    ensures Follows(signed, c, [e]) <==> Allowed(signed, c, e)
  {
    assert [e][1..] == [];
  }

  // ---- what a trace delivers -------------------------------------------------

  /** The characters delivered to block i, in order. */
  function DeliveredTo(trace: seq<Event>, i: int): string {
    if trace == [] then "" else
      var e := trace[|trace| - 1];
      DeliveredTo(trace[..|trace| - 1], i) +
      if e.BlockDelta? && e.index == i then e.delta.Payload() else ""
  }

  predicate IsStart(e: Event, i: int) { e.BlockStart? && e.index == i }

  predicate IsStop(e: Event, i: int) { e.BlockStop? && e.index == i }

  predicate IsSignature(e: Event, i: int) { e.BlockDelta? && e.index == i && e.delta.SignatureDelta? }

  /** How block i was started last. */
  function StartOf(trace: seq<Event>, i: int): Option<Content> {
    if trace == [] then None else
      if IsStart(trace[|trace| - 1], i) then Some(trace[|trace| - 1].content) else StartOf(trace[..|trace| - 1], i)
  }

  function Starts(trace: seq<Event>, i: int): nat {
    if trace == [] then 0 else
      Starts(trace[..|trace| - 1], i) + if IsStart(trace[|trace| - 1], i) then 1 else 0
  }

  function Stops(trace: seq<Event>, i: int): nat {
    if trace == [] then 0 else
      Stops(trace[..|trace| - 1], i) + if IsStop(trace[|trace| - 1], i) then 1 else 0
  }

  // ---- what acceptance means -------------------------------------------------

  lemma Snoc(signed: bool, trace: seq<Event>)
    requires trace != []
    ensures var p := trace[..|trace| - 1]; var e := trace[|trace| - 1];
            && After(START, trace) == Advance(After(START, p), e)
            && (Follows(signed, START, trace) <==> Follows(signed, START, p) && Allowed(signed, After(START, p), e))
  {
    var p, e := trace[..|trace| - 1], trace[|trace| - 1];
    assert trace == p + [e];
    Concatenation(signed, START, p, [e]);
    One(signed, After(START, p), e);
  }

  /** The cursor counts: a block is open when started and not stopped, closed when both. */
  lemma {:induction false} CursorCounts(signed: bool, trace: seq<Event>, i: int)
    requires Follows(signed, START, trace)
    ensures var c := After(START, trace);
            && Starts(trace, i) == (if i in c.open || i in c.closed then 1 else 0)
            && Stops(trace, i) == (if i in c.closed then 1 else 0)
            && !(i in c.open && i in c.closed)
            && (c.phase.Delivered? || c.phase.Ended? ==> c.open == map[])
  {
    if trace != [] {
      Snoc(signed, trace);
      CursorCounts(signed, trace[..|trace| - 1], i);
    }
  }

  /** The kind the cursor keeps for an open block is the kind of its start event. */
  lemma {:induction false} OpenKind(signed: bool, trace: seq<Event>, i: int) returns (p: nat)
    requires Follows(signed, START, trace)
    requires i in After(START, trace).open
    ensures p < |trace| && IsStart(trace[p], i)
    ensures trace[p].content.BlockKind() == After(START, trace).open[i]
  {
    Snoc(signed, trace);
    if IsStart(trace[|trace| - 1], i) {
      p := |trace| - 1;
    } else {
      p := OpenKind(signed, trace[..|trace| - 1], i);
    }
  }

  /** In a complete stream every block is started at most once and stopped as often
      as it is started. */
  lemma CompleteBalances(signed: bool, trace: seq<Event>, i: int)
    requires Complete(signed, trace)
    ensures Starts(trace, i) == Stops(trace, i) <= 1
  {
    CursorCounts(signed, trace, i);
  }

  /** A prefix of an accepted trace is accepted, and its next event is allowed. */
  lemma PrefixFollows(signed: bool, trace: seq<Event>, k: nat)
    requires Follows(signed, START, trace) && k < |trace|
    ensures Follows(signed, START, trace[..k])
    ensures Allowed(signed, After(START, trace[..k]), trace[k])
  {
    assert trace == trace[..k] + trace[k..];
    Concatenation(signed, START, trace[..k], trace[k..]);
  }

  /** Every delta finds its block started, not yet stopped, and of its own kind. */
  lemma DeltaInsideBlock(signed: bool, trace: seq<Event>, k: nat) returns (p: nat)
    requires Follows(signed, START, trace)
    requires k < |trace| && trace[k].BlockDelta?
    ensures Starts(trace[..k], trace[k].index) == 1 && Stops(trace[..k], trace[k].index) == 0
    ensures p < k && IsStart(trace[p], trace[k].index) && trace[p].content.BlockKind() == trace[k].delta.BlockKind()
  {
    PrefixFollows(signed, trace, k);
    CursorCounts(signed, trace[..k], trace[k].index);
    p := OpenKind(signed, trace[..k], trace[k].index);
  }

  lemma {:induction false} PhaseCounts(signed: bool, trace: seq<Event>)
    requires Follows(signed, START, trace)
    ensures var c := After(START, trace);
            && (c.phase == Fresh <==> trace == [])
            && (trace != [] ==> trace[0] == MessageStart)
            && (forall k :: 0 < k < |trace| ==> trace[k] != MessageStart)
            && (c.phase == Ended ==>
                    |trace| >= 3 && trace[|trace| - 1] == MessageStop && trace[|trace| - 2].MessageDelta?)
            && (c.phase == Delivered ==> |trace| >= 2 && trace[|trace| - 1].MessageDelta?)
            && (forall k :: 0 <= k < |trace| && trace[k].MessageStop? ==> c.phase == Ended && k == |trace| - 1)
            && (forall k :: 0 <= k < |trace| && trace[k].MessageDelta? ==>
                  && (c.phase == Ended || c.phase == Delivered)
                  && k == if c.phase == Ended then |trace| - 2 else |trace| - 1)
  {
    if trace != [] {
      Snoc(signed, trace);
      PhaseCounts(signed, trace[..|trace| - 1]);
    }
  }

  /** A complete stream begins with the only message_start and ends with the only
      message_delta followed by the only message_stop. */
  lemma CompleteFrame(signed: bool, trace: seq<Event>)
    requires Complete(signed, trace)
    ensures |trace| >= 3 && trace[0] == MessageStart
    ensures trace[|trace| - 2].MessageDelta? && trace[|trace| - 1] == MessageStop
    ensures forall k :: 0 <= k < |trace| ==>
              && (trace[k] == MessageStart ==> k == 0)
              && (trace[k].MessageDelta? ==> k == |trace| - 2)
              && (trace[k].MessageStop? ==> k == |trace| - 1)
  {
    PhaseCounts(signed, trace);
  }

  /** In the signed dialect a thinking block is stopped right after its signature,
      and a signature is followed right away by the stop of its block. */
  lemma SignedStop(trace: seq<Event>, k: nat)
    requires Complete(true, trace) && k < |trace|
    ensures trace[k].BlockStop? ==>
              && k > 0
              && trace[k].index in After(START, trace[..k]).open
              && (After(START, trace[..k]).open[trace[k].index] == ThinkingKind
                  <==> IsSignature(trace[k - 1], trace[k].index))
    ensures forall i :: IsSignature(trace[k], i) ==> k + 1 < |trace| && IsStop(trace[k + 1], i)
  {
    PrefixFollows(true, trace, k);
    if k > 0 {
      PrefixFollows(true, trace, k - 1);
      assert trace[..k][..k - 1] == trace[..k - 1];
      Snoc(true, trace[..k]);
      SealedBySignature(trace[..k]);
    }
    forall i | IsSignature(trace[k], i) ensures k + 1 < |trace| && IsStop(trace[k + 1], i) {
      assert trace[..k + 1][..k] == trace[..k];
      Snoc(true, trace[..k + 1]);
      if k + 1 < |trace| {
        PrefixFollows(true, trace, k + 1);
      } else {
        SealedBySignature(trace);
      }
    }
  }

  lemma SealedBySignature(trace: seq<Event>)
    requires Follows(true, START, trace)
    ensures forall i :: i in After(START, trace).sealed ==> trace != [] && IsSignature(trace[|trace| - 1], i)
    ensures After(START, trace).sealed != {} ==> After(START, trace).phase == Streaming
    ensures trace != [] ==> forall i :: IsSignature(trace[|trace| - 1], i) ==> After(START, trace).sealed == {i}
  {
    if trace != [] {
      Snoc(true, trace);
      SealedBySignature(trace[..|trace| - 1]);
    }
  }
}
