/** Tool calls through the Chat to Claude converter: which fragments reach which
    block, and that each named block gets exactly its fragments. */
module ChatToClaudeTools {
  import opened Basics
  import opened ChatDto
  import opened ClaudeTrace
  import opened ChatToClaude
  import Text

  // ---- the fragments a stream routes -------------------------------------------

  /** One tool-call fragment: the tool phase (named by its first block) and the block
      it was routed to, its index, its trimmed id and name, and its arguments text. */
  datatype Fragment = Fragment(phase: int, block: int, index: int, id: string, name: string, text: string)

  function FragmentOf(s: Info, position: int, delta: ToolDelta): Fragment
    requires InPhase(s)
  {
    var index, id := IndexOf(delta, position), Text.Trim(delta.id);
    Fragment(s.base, s.base + Lookup(s, index, id), index, id, Text.Trim(delta.name), delta.arguments)
  }

  function DeltaFragments(s: Info, deltas: seq<ToolDelta>): seq<Fragment>
    requires InPhase(s)
  {
    if deltas == [] then [] else
      var n := |deltas| - 1;
      DeltaFragments(s, deltas[..n]) + [FragmentOf(ApplyToolDeltas(s, deltas[..n]).0, n, deltas[n])]
  }

  function ChunkFragments(s: Info, chunk: Chunk, uuid: Uuid): seq<Fragment>
    requires Shaped(s)
  {
    if s.done || chunk.choices == [] || chunk.choices[0].toolCalls == [] then [] else
      DeltaFragments(EnterTools(Noted(OpenMessage(s.(sent := s.sent + 1), chunk.usage).0, chunk.choices[0]), uuid).0,
                     chunk.choices[0].toolCalls)
  }

  /** Every fragment of a stream, in the order of arrival. */
  function Fragments(chunks: seq<Chunk>, uuid: Uuid): seq<Fragment> {
    if chunks == [] then [] else
      var n := |chunks| - 1;
      Fragments(chunks[..n], uuid) + ChunkFragments(Run(chunks[..n], uuid).0, chunks[n], uuid)
  }

  // ---- what fragments say about a block ----------------------------------------

  function Touched(frags: seq<Fragment>, b: int): bool {
    frags != [] && (frags[|frags| - 1].block == b || Touched(frags[..|frags| - 1], b))
  }

  /** The arguments text routed to a block. */
  function Received(frags: seq<Fragment>, b: int): string {
    if frags == [] then "" else
      var f := frags[|frags| - 1];
      Received(frags[..|frags| - 1], b) + if f.block == b then f.text else ""
  }

  /** The first non-empty id routed to a block. */
  function IdOf(frags: seq<Fragment>, b: int): string {
    if frags == [] then "" else
      var id := IdOf(frags[..|frags| - 1], b);
      if id == "" && frags[|frags| - 1].block == b then frags[|frags| - 1].id else id
  }

  /** The first non-empty name routed to a block. */
  function NameOf(frags: seq<Fragment>, b: int): string {
    if frags == [] then "" else
      var name := NameOf(frags[..|frags| - 1], b);
      if name == "" && frags[|frags| - 1].block == b then frags[|frags| - 1].name else name
  }

  /** The block the last fragment of a phase at an index went to. */
  function LastBlock(frags: seq<Fragment>, phase: int, index: int): Option<int> {
    if frags == [] then None else
      var f := frags[|frags| - 1];
      if f.phase == phase && f.index == index then Some(f.block) else LastBlock(frags[..|frags| - 1], phase, index)
  }

  /** What a trace shows of a block: how it was started and what was delivered. */
  function Shown(trace: seq<Event>, b: int): (Option<Content>, string) { (StartOf(trace, b), DeliveredTo(trace, b)) }

  const NOTHING: (Option<Content>, string) := (None, "")

  /** What a closed tool block must show: a block nobody named is never started; a
      named one is started under its id (a generated one when none came) and gets
      all its fragments. */
  function Expected(frags: seq<Fragment>, b: int, uuid: Uuid): (Option<Content>, string) {
    if NameOf(frags, b) == "" then NOTHING
    else (Some(ToolBlock(if IdOf(frags, b) == "" then "toolu_" + uuid(b) else IdOf(frags, b), NameOf(frags, b))),
          Received(frags, b))
  }

  lemma FragmentSnoc(frags: seq<Fragment>, f: Fragment, b: int)
    ensures var more := frags + [f];
            && Touched(more, b) == (f.block == b || Touched(frags, b))
            && Received(more, b) == (if f.block == b then Received(frags, b) + f.text else Received(frags, b))
            && IdOf(more, b) == (if IdOf(frags, b) == "" && f.block == b then f.id else IdOf(frags, b))
            && NameOf(more, b) == (if NameOf(frags, b) == "" && f.block == b then f.name else NameOf(frags, b))
  {
    assert (frags + [f])[..|frags|] == frags;
    assert Received(frags, b) + "" == Received(frags, b);
  }

  lemma {:induction false} UntouchedSaysNothing(frags: seq<Fragment>, b: int)
    requires !Touched(frags, b)
    ensures Received(frags, b) == "" && IdOf(frags, b) == "" && NameOf(frags, b) == ""
  {
    if frags != [] {
      UntouchedSaysNothing(frags[..|frags| - 1], b);
    }
  }

  lemma {:induction false} TouchedBy(frags: seq<Fragment>, b: int)
    ensures Touched(frags, b) <==> exists k :: 0 <= k < |frags| && frags[k].block == b
  {
    if frags != [] {
      TouchedBy(frags[..|frags| - 1], b);
      if Touched(frags, b) && frags[|frags| - 1].block != b {
        var k :| 0 <= k < |frags| - 1 && frags[..|frags| - 1][k].block == b;
        assert frags[k].block == b;
      }
      if k :| 0 <= k < |frags| && frags[k].block == b {
        if k < |frags| - 1 { assert frags[..|frags| - 1][k].block == b; }
      }
    }
  }

  // ---- what events show ---------------------------------------------------------

  predicate Silent(evs: seq<Event>, b: int) {
    forall k :: 0 <= k < |evs| ==> (evs[k].BlockStart? || evs[k].BlockDelta? ==> evs[k].index != b)
  }

  lemma ShownSnoc(trace: seq<Event>, e: Event, b: int)
    ensures Shown(trace + [e], b) ==
            (if IsStart(e, b) then Some(e.content) else StartOf(trace, b),
             if e.BlockDelta? && e.index == b then DeliveredTo(trace, b) + e.delta.Payload() else DeliveredTo(trace, b))
  {
    assert (trace + [e])[..|trace|] == trace;
    assert DeliveredTo(trace, b) + "" == DeliveredTo(trace, b);
  }

  lemma {:induction false} SilentShows(trace: seq<Event>, evs: seq<Event>, b: int)
    requires Silent(evs, b)
    ensures Shown(trace + evs, b) == Shown(trace, b)
  {
    if evs == [] {
      assert trace + evs == trace;
    } else {
      var n := |evs| - 1;
      SilentShows(trace, evs[..n], b);
      ShownSnoc(trace + evs[..n], evs[n], b);
      assert trace + evs == (trace + evs[..n]) + [evs[n]];
    }
  }

  lemma StartShows(trace: seq<Event>, tool: Tool)
    ensures Shown(trace + Start(tool), tool.blockIndex) ==
            (Some(ToolBlock(tool.id, tool.name)), DeliveredTo(trace, tool.blockIndex) + tool.pending)
  {
    var start := BlockStart(tool.blockIndex, ToolBlock(tool.id, tool.name));
    ShownSnoc(trace, start, tool.blockIndex);
    if tool.pending != "" {
      var delta := BlockDelta(tool.blockIndex, InputJsonDelta(tool.pending));
      ShownSnoc(trace + [start], delta, tool.blockIndex);
      assert trace + Start(tool) == (trace + [start]) + [delta];
    } else {
      assert trace + Start(tool) == trace + [start];
      assert DeliveredTo(trace, tool.blockIndex) + tool.pending == DeliveredTo(trace, tool.blockIndex);
    }
  }

  lemma {:induction false} StartPendingShows(tools: seq<Tool>, base: int, uuid: Uuid, trace: seq<Event>, b: int)
    requires forall i :: 0 <= i < |tools| ==> tools[i].blockIndex == base + i
    ensures Shown(trace + StartPending(tools, uuid).1, b) ==
            if base <= b < base + |tools| && Startable(tools[b - base]) then
              (Some(ToolBlock(Identified(tools[b - base], uuid).id, tools[b - base].name)),
               DeliveredTo(trace, b) + tools[b - base].pending)
            else Shown(trace, b)
  {
    if tools == [] {
      assert trace + [] == trace;
    } else {
      var n := |tools| - 1;
      StartPendingShows(tools[..n], base, uuid, trace, b);
      if Startable(tools[n]) {
        var before, start := trace + StartPending(tools[..n], uuid).1, Start(Identified(tools[n], uuid));
        assert trace + StartPending(tools, uuid).1 == before + start;
        if b == base + n {
          StartShows(before, Identified(tools[n], uuid));
        } else {
          SilentShows(before, start, b);
        }
      } else {
        assert StartPending(tools, uuid).1 == StartPending(tools[..n], uuid).1;
      }
    }
  }

  lemma {:induction false} StopsAreSilent(tools: seq<Tool>, b: int)
    ensures Silent(StopStarted(tools), b)
  {
    if tools != [] {
      StopsAreSilent(tools[..|tools| - 1], b);
    }
  }

  // ---- the invariant ------------------------------------------------------------

  /** In a phase, a tool is exactly what its fragments say, started once it has both
      id and name, and the trace shows its fragments exactly when it is started. */
  predicate Mirrors(tool: Tool, b: int, trace: seq<Event>, frags: seq<Fragment>) {
    var id, name := IdOf(frags, b), NameOf(frags, b);
    var started := id != "" && name != "";
    && tool == Tool(b, id, name, if started then "" else Received(frags, b), started)
    && Shown(trace, b) == if started then (Some(ToolBlock(id, name)), Received(frags, b)) else NOTHING
  }

  ghost predicate Settled(trace: seq<Event>, frags: seq<Fragment>, uuid: Uuid, limit: int) {
    forall b :: b < limit && Touched(frags, b) ==> Shown(trace, b) == Expected(frags, b, uuid)
  }

  ghost predicate Unused(trace: seq<Event>, from: int) { forall b :: b >= from ==> Shown(trace, b) == NOTHING }

  predicate Below(frags: seq<Fragment>, limit: int) {
    forall k :: 0 <= k < |frags| ==> frags[k].phase <= frags[k].block < limit
  }

  ghost predicate InPhaseMirrors(s: Info, trace: seq<Event>, frags: seq<Fragment>)
    requires forall x :: x in s.byId ==> s.byId[x] < |s.tools|
  {
    && (forall p :: 0 <= p < |s.tools| ==> Mirrors(s.tools[p], s.base + p, trace, frags))
    && (forall k :: 0 <= k < |frags| ==> (frags[k].phase == s.base <==> frags[k].block >= s.base))
    && IdMapAgrees(s)
    && IndexMapAgrees(s, frags)
  }

  ghost predicate Tracks(s: Info, trace: seq<Event>, frags: seq<Fragment>, uuid: Uuid)
    requires Shaped(s) || InPhase(s)
  {
    if s.last == LastTools then
      && InPhaseMirrors(s, trace, frags) && Settled(trace, frags, uuid, s.base)
      && Below(frags, s.base + |s.tools|) && Unused(trace, s.base + |s.tools|)
    else
      && Settled(trace, frags, uuid, s.index) && Below(frags, s.index)
      && Unused(trace, if s.last == LastNone then s.index else s.index + 1)
  }

  /** Fragments of one phase with ids go to one block exactly when the ids are equal. */
  predicate IdsAgree(frags: seq<Fragment>) {
    forall i, j :: 0 <= i < |frags| && 0 <= j < |frags| && frags[i].phase == frags[j].phase
                   && frags[i].id != "" && frags[j].id != "" ==>
      (frags[i].id == frags[j].id <==> frags[i].block == frags[j].block)
  }

  /** A fragment without id continues the tool last active at its index in its phase, and begins a
      new one when there is none. */
  predicate IndexesAgree(frags: seq<Fragment>) {
    forall k :: 0 <= k < |frags| && frags[k].id == "" ==> Continues(frags[..k], frags[k])
  }

  predicate Continues(before: seq<Fragment>, f: Fragment) {
    var last := LastBlock(before, f.phase, f.index);
    if last.Some? then f.block == last.value else !Touched(before, f.block)
  }

  predicate IdsFixed(frags: seq<Fragment>) {
    forall k :: 0 <= k < |frags| && frags[k].id != "" ==> frags[k].id == IdOf(frags, frags[k].block)
  }

  // ---- one tool delta -------------------------------------------------------------

  predicate IdsMirror(s: Info, frags: seq<Fragment>) {
    forall p :: 0 <= p < |s.tools| ==> s.tools[p].id == IdOf(frags, s.base + p)
  }

  /** The tool a delta is routed to has no other id, and is the known one for its id. */
  lemma LookupById(s: Info, index: int, id: string)
    requires InPhase(s) && IdMapAgrees(s) && id != ""
    ensures var p := Lookup(s, index, id);
            && (p < |s.tools| ==> s.tools[p].id == "" || s.tools[p].id == id)
            && (forall q :: 0 <= q < |s.tools| && s.tools[q].id == id ==> q == p)
  {
  }

  lemma IdsStayFixed(s: Info, frags: seq<Fragment>, position: int, delta: ToolDelta)
    requires InPhase(s) && IdMapAgrees(s) && IdsMirror(s, frags) && Below(frags, s.base + |s.tools|) && IdsFixed(frags)
    ensures IdsFixed(frags + [FragmentOf(s, position, delta)])
  {
    hide InPhase, IndexOf, Lookup, NameOf, Received, Text.IsSpace, Text.Trim, Touched;
    var f := FragmentOf(s, position, delta);
    var more := frags + [f];
    var p := Lookup(s, f.index, f.id);
    if f.id != "" {
      LookupById(s, f.index, f.id);
      if p == |s.tools| {
        NotTouched(frags, f.block);
        UntouchedSaysNothing(frags, f.block);
      }
    }
    forall k | 0 <= k < |more| && more[k].id != "" ensures more[k].id == IdOf(more, more[k].block) {
      FragmentSnoc(frags, f, more[k].block);
    }
  }

  lemma IdsStayAgreed(s: Info, frags: seq<Fragment>, position: int, delta: ToolDelta)
    requires InPhase(s) && IdMapAgrees(s) && IdsMirror(s, frags) && Below(frags, s.base + |s.tools|)
    requires forall k :: 0 <= k < |frags| ==> (frags[k].phase == s.base <==> frags[k].block >= s.base)
    requires IdsFixed(frags) && IdsAgree(frags)
    ensures IdsAgree(frags + [FragmentOf(s, position, delta)])
  {
    hide IdMapAgrees, IdOf, InPhase, IndexOf, Lookup, Text.IsSpace, Text.Trim;
    var f := FragmentOf(s, position, delta);
    if f.id != "" {
      LookupById(s, f.index, f.id);
      forall i | 0 <= i < |frags| && frags[i].phase == f.phase && frags[i].id != ""
        ensures frags[i].id == f.id <==> frags[i].block == f.block
      {
        var q := frags[i].block - s.base;
        assert 0 <= q < |s.tools| && s.tools[q].id == frags[i].id;
      }
    }
  }

  lemma IndexesStayAgreed(s: Info, frags: seq<Fragment>, position: int, delta: ToolDelta)
    requires InPhase(s) && IndexMapAgrees(s, frags) && Below(frags, s.base + |s.tools|) && IndexesAgree(frags)
    ensures IndexesAgree(frags + [FragmentOf(s, position, delta)])
  {
    var f := FragmentOf(s, position, delta);
    var more := frags + [f];
    forall k | 0 <= k < |more| && more[k].id == "" ensures Continues(more[..k], more[k]) {
      assert more[..k] == frags[..k];
      if k == |frags| {
        assert frags[..k] == frags;
        LastContinues(s, frags, position, delta);
      } else {
        assert more[k] == frags[k];
      }
    }
  }

  lemma LastContinues(s: Info, frags: seq<Fragment>, position: int, delta: ToolDelta)
    requires InPhase(s) && IndexMapAgrees(s, frags) && Below(frags, s.base + |s.tools|)
    requires FragmentOf(s, position, delta).id == ""
    ensures Continues(frags, FragmentOf(s, position, delta))
  {
    hide Text.Trim, Touched, LastBlock;
    var f := FragmentOf(s, position, delta);
    assert LastBlock(frags, s.base, f.index) == if f.index in s.byIndex then Some(s.base + s.byIndex[f.index])
           else None;
    if f.index !in s.byIndex {
      NotTouched(frags, f.block);
    }
  }

  lemma NotTouched(frags: seq<Fragment>, b: int)
    requires forall k :: 0 <= k < |frags| ==> frags[k].block < b
    ensures !Touched(frags, b)
  {
    TouchedBy(frags, b);
  }

  /** The routed tool, and what it shows, after its fragment is delivered. */
  lemma DeliverMirrors(before: Tool, b: int, trace: seq<Event>, frags: seq<Fragment>, f: Fragment)
    requires Mirrors(before, b, trace, frags) && f.block == b
    requires f.id == "" || before.id == "" || before.id == f.id
    ensures var (tool, evs) := Deliver(Identify(before, f.id, f.name), f.text);
            Mirrors(tool, b, trace + evs, frags + [f])
  {
    FragmentSnoc(frags, f, b);
    var identified := Identify(before, f.id, f.name);
    var (tool, evs) := Deliver(identified, f.text);
    if identified.started {
      if f.text != "" {
        ShownSnoc(trace, evs[0], b);
      } else {
        assert trace + evs == trace && Received(frags, b) + f.text == Received(frags, b);
      }
    } else if identified.id != "" && identified.name != "" {
      StartShows(trace, identified.(pending := identified.pending + f.text));
      assert "" + Received(frags + [f], b) == Received(frags + [f], b);
    } else {
      assert trace + evs == trace;
    }
  }

  lemma DeliverIsLocal(tool: Tool, text: string, trace: seq<Event>, b: int)
    requires b != tool.blockIndex
    ensures Shown(trace + Deliver(tool, text).1, b) == Shown(trace, b)
  {
    SilentShows(trace, Deliver(tool, text).1, b);
  }

  /** Before its fragment arrives, the routed tool says what its block's fragments say. */
  lemma RoutedMirrors(s: Info, index: int, id: string, trace: seq<Event>, frags: seq<Fragment>)
    requires InPhase(s) && InPhaseMirrors(s, trace, frags)
    requires Below(frags, s.base + |s.tools|) && Unused(trace, s.base + |s.tools|)
    ensures var p := Lookup(s, index, id);
            var before := Routed(s, index, id).tools[p];
            && Mirrors(before, s.base + p, trace, frags)
            && (id == "" || before.id == "" || before.id == id)
  {
    hide Touched, Received, IdOf, NameOf, Shown, Below, IndexMapAgrees;
    var p := Lookup(s, index, id);
    if p == |s.tools| {
      BelowUntouched(frags, s.base + p);
      UntouchedSaysNothing(frags, s.base + p);
      assert Shown(trace, s.base + p) == NOTHING;
    } else {
      assert Mirrors(s.tools[p], s.base + p, trace, frags);
    }
  }

  lemma BelowUntouched(frags: seq<Fragment>, b: int)
    requires Below(frags, b)
    ensures !Touched(frags, b)
  {
    NotTouched(frags, b);
  }

  /** Delivering a fragment changes what is said and shown of its own block only. */
  lemma DeltaIsLocal(s: Info, position: int, delta: ToolDelta, trace: seq<Event>, frags: seq<Fragment>, b: int)
    requires InPhase(s) && b != FragmentOf(s, position, delta).block
    ensures var trace' := trace + ApplyToolDelta(s, position, delta).1;
            var frags' := frags + [FragmentOf(s, position, delta)];
            && Shown(trace', b) == Shown(trace, b) && Touched(frags', b) == Touched(frags, b)
            && Received(frags', b) == Received(frags, b)
            && IdOf(frags', b) == IdOf(frags, b) && NameOf(frags', b) == NameOf(frags, b)
  {
    var f := FragmentOf(s, position, delta);
    var before := Routed(s, f.index, f.id).tools[Lookup(s, f.index, f.id)];
    DeliverIsLocal(Identify(before, f.id, f.name), f.text, trace, b);
    FragmentSnoc(frags, f, b);
  }

  /** The tools after a delta: the routed one served, the others as before. */
  lemma DeltaTools(s: Info, position: int, delta: ToolDelta, q: nat)
    requires InPhase(s) && q < |ApplyToolDelta(s, position, delta).0.tools|
    ensures var f := FragmentOf(s, position, delta);
            var p := Lookup(s, f.index, f.id);
            var (s', evs) := ApplyToolDelta(s, position, delta);
            var served := Deliver(Identify(Routed(s, f.index, f.id).tools[p], f.id, f.name), f.text);
            && f.block == s.base + p && p < |s'.tools| && evs == served.1
            && |s'.tools| == (if p < |s.tools| then |s.tools| else |s.tools| + 1)
            && (q == p ==> s'.tools[q] == served.0)
            && (q != p ==> q < |s.tools| && s'.tools[q] == s.tools[q])
  {
  }

  lemma DeltaMirrors(s: Info, position: int, delta: ToolDelta, trace: seq<Event>, frags: seq<Fragment>, q: nat)
    requires InPhase(s) && q < |ApplyToolDelta(s, position, delta).0.tools|
    requires var f := FragmentOf(s, position, delta);
             var p := Lookup(s, f.index, f.id);
             var before := Routed(s, f.index, f.id).tools[p];
             if q == p then Mirrors(before, s.base + p, trace, frags)
               && (f.id == "" || before.id == "" || before.id == f.id)
             else q < |s.tools| ==> Mirrors(s.tools[q], s.base + q, trace, frags)
    ensures var (s', evs) := ApplyToolDelta(s, position, delta);
            Mirrors(s'.tools[q], s.base + q, trace + evs, frags + [FragmentOf(s, position, delta)])
  {
    hide ApplyToolDelta, Deliver, Identify, Mirrors, Routed, Lookup, Text.Trim;
    var f := FragmentOf(s, position, delta);
    DeltaTools(s, position, delta, q);
    if q == Lookup(s, f.index, f.id) {
      DeliverMirrors(Routed(s, f.index, f.id).tools[q], f.block, trace, frags, f);
    } else {
      DeltaIsLocal(s, position, delta, trace, frags, s.base + q);
      StillMirrors(s.tools[q], s.base + q, trace, frags, trace + ApplyToolDelta(s, position, delta).1, frags + [f]);
    }
  }

  /** What is said and shown of a block is all that matters to its tool. */
  lemma StillMirrors(tool: Tool, b: int, trace: seq<Event>, frags: seq<Fragment>,
                     trace': seq<Event>, frags': seq<Fragment>)
    requires Mirrors(tool, b, trace, frags) && Shown(trace', b) == Shown(trace, b)
    requires Received(frags', b) == Received(frags, b)
    requires IdOf(frags', b) == IdOf(frags, b) && NameOf(frags', b) == NameOf(frags, b)
    ensures Mirrors(tool, b, trace', frags')
  {
    hide Shown, Received, IdOf, NameOf;
  }

  /** The index map remembers the block last used at each index of the phase. */
  ghost predicate IndexMapAgrees(s: Info, frags: seq<Fragment>) {
    forall x :: LastBlock(frags, s.base, x) == if x in s.byIndex then Some(s.base + s.byIndex[x]) else None
  }

  lemma LastBlockNext(frags: seq<Fragment>, f: Fragment, x: int)
    ensures LastBlock(frags + [f], f.phase, x)
         == if f.index == x then Some(f.block) else LastBlock(frags, f.phase, x)
  {
    assert (frags + [f])[..|frags|] == frags;
  }

  lemma FragmentPlace(s: Info, position: int, delta: ToolDelta)
    requires InPhase(s)
    ensures var f := FragmentOf(s, position, delta); f.phase == s.base && f.block == s.base + Lookup(s, f.index, f.id)
  {
  }

  lemma IndexMapGrows(s: Info, position: int, delta: ToolDelta, frags: seq<Fragment>)
    requires InPhase(s) && IndexMapAgrees(s, frags)
    ensures IndexMapAgrees(ApplyToolDelta(s, position, delta).0, frags + [FragmentOf(s, position, delta)])
  {
    hide ApplyToolDelta, FragmentOf, Lookup, LastBlock, InPhase;
    var f := FragmentOf(s, position, delta);
    var s' := ApplyToolDelta(s, position, delta).0;
    DeltaIds(s, position, delta);
    FragmentPlace(s, position, delta);
    forall x
      ensures LastBlock(frags + [f], s.base, x) == if x in s'.byIndex then Some(s.base + s'.byIndex[x]) else None
    {
      LastBlockNext(frags, f, x);
    }
  }

  lemma DeltaInPhase(s: Info, position: int, delta: ToolDelta, trace: seq<Event>, frags: seq<Fragment>, q: nat)
    requires InPhase(s) && InPhaseMirrors(s, trace, frags)
    requires Below(frags, s.base + |s.tools|) && Unused(trace, s.base + |s.tools|)
    requires q < |ApplyToolDelta(s, position, delta).0.tools|
    ensures var (s', evs) := ApplyToolDelta(s, position, delta);
            Mirrors(s'.tools[q], s.base + q, trace + evs, frags + [FragmentOf(s, position, delta)])
  {
    hide Mirrors, ApplyToolDelta, Shown, IdMapAgrees, IndexMapAgrees, Lookup, Routed, InPhase;
    var f := FragmentOf(s, position, delta);
    RoutedMirrors(s, f.index, f.id, trace, frags);
    assert q < |s.tools| ==> Mirrors(s.tools[q], s.base + q, trace, frags);
    DeltaMirrors(s, position, delta, trace, frags, q);
  }

  /** The id map and the tools' ids say the same. */
  predicate IdMapAgrees(s: Info)
    requires forall x :: x in s.byId ==> s.byId[x] < |s.tools|
  {
    && (forall x :: x in s.byId ==> x != "" && s.tools[s.byId[x]].id == x)
    && (forall p :: 0 <= p < |s.tools| && s.tools[p].id != "" ==> s.tools[p].id in s.byId && s.byId[s.tools[p].id] == p)
  }

  lemma DeliverKeepsIds(tool: Tool, text: string)
    ensures Deliver(tool, text).0.id == tool.id && Deliver(tool, text).0.name == tool.name
  {
  }

  /** The ids after a delta: only the routed tool may take one, and only if it has none. */
  lemma DeltaIds(s: Info, position: int, delta: ToolDelta)
    requires InPhase(s)
    ensures var f, s' := FragmentOf(s, position, delta), ApplyToolDelta(s, position, delta).0;
            var p := Lookup(s, f.index, f.id);
            var id := if p < |s.tools| then s.tools[p].id else "";
            && p < |s'.tools| && |s'.tools| == (if p < |s.tools| then |s.tools| else |s.tools| + 1)
            && s'.tools[p].id == (if id == "" then f.id else id)
            && s'.byId == (if id == "" && f.id != "" then s.byId[f.id := p] else s.byId)
            && s'.byIndex == s.byIndex[f.index := p]
            && forall q :: 0 <= q < |s.tools| && q != p ==> s'.tools[q] == s.tools[q]
  {
    hide Text.Trim, Lookup, Deliver;
    var f := FragmentOf(s, position, delta);
    var routed := Routed(s, f.index, f.id);
    DeliverKeepsIds(Identify(routed.tools[Lookup(s, f.index, f.id)], f.id, f.name), f.text);
  }

  lemma IdMapGrows(s: Info, position: int, delta: ToolDelta)
    requires InPhase(s) && IdMapAgrees(s)
    ensures IdMapAgrees(ApplyToolDelta(s, position, delta).0)
  {
    hide ApplyToolDelta, FragmentOf, Lookup;
    var f := FragmentOf(s, position, delta);
    DeltaIds(s, position, delta);
    if f.id != "" { LookupById(s, f.index, f.id); }
  }

  lemma DeltaCounts(s: Info, position: int, delta: ToolDelta)
    requires InPhase(s)
    ensures var f, s' := FragmentOf(s, position, delta), ApplyToolDelta(s, position, delta).0;
            && |s.tools| <= |s'.tools| && s.base <= f.block < s.base + |s'.tools| && f.phase == s.base
  {
  }

  lemma DeltaSettles(s: Info, position: int, delta: ToolDelta, trace: seq<Event>, frags: seq<Fragment>, uuid: Uuid)
    requires InPhase(s) && Settled(trace, frags, uuid, s.base) && Unused(trace, s.base + |s.tools|)
    ensures var (s', evs) := ApplyToolDelta(s, position, delta);
            && Settled(trace + evs, frags + [FragmentOf(s, position, delta)], uuid, s.base)
            && Unused(trace + evs, s.base + |s'.tools|)
  {
    var f := FragmentOf(s, position, delta);
    var (s', evs) := ApplyToolDelta(s, position, delta);
    DeltaCounts(s, position, delta);
    hide ApplyToolDelta, Shown, Expected, Lookup, Routed;
    forall b | b < s.base && Touched(frags + [f], b) ensures Shown(trace + evs, b) == Expected(frags + [f], b, uuid) {
      DeltaIsLocal(s, position, delta, trace, frags, b);
      ExpectedLocal(frags, f, b, uuid);
    }
    forall b | b >= s.base + |s'.tools| ensures Shown(trace + evs, b) == NOTHING {
      DeltaIsLocal(s, position, delta, trace, frags, b);
      assert Shown(trace, b) == NOTHING;
    }
  }

  lemma DeltaTracks(s: Info, position: int, delta: ToolDelta, trace: seq<Event>, frags: seq<Fragment>, uuid: Uuid)
    requires InPhase(s) && Tracks(s, trace, frags, uuid)
    ensures var (s', evs) := ApplyToolDelta(s, position, delta);
            Tracks(s', trace + evs, frags + [FragmentOf(s, position, delta)], uuid)
  {
    hide Mirrors, ApplyToolDelta, Shown, IdMapAgrees, IndexMapAgrees, Settled, Unused, Lookup, Routed;
    var f := FragmentOf(s, position, delta);
    DeltaCounts(s, position, delta);
    DeltaSettles(s, position, delta, trace, frags, uuid);
    IdMapGrows(s, position, delta);
    IndexMapGrows(s, position, delta, frags);
    forall q | 0 <= q < |ApplyToolDelta(s, position, delta).0.tools|
      ensures Mirrors(ApplyToolDelta(s, position, delta).0.tools[q], s.base + q,
                      trace + ApplyToolDelta(s, position, delta).1, frags + [f])
    {
      DeltaInPhase(s, position, delta, trace, frags, q);
    }
  }

  lemma ExpectedLocal(frags: seq<Fragment>, f: Fragment, b: int, uuid: Uuid)
    requires f.block != b
    ensures Expected(frags + [f], b, uuid) == Expected(frags, b, uuid)
  {
    FragmentSnoc(frags, f, b);
  }

  // ---- closing and opening blocks ---------------------------------------------------

  /** Nothing is open: every touched block below next shows what it should. */
  ghost predicate Clear(trace: seq<Event>, frags: seq<Fragment>, uuid: Uuid, next: int) {
    Settled(trace, frags, uuid, next) && Below(frags, next) && Unused(trace, next)
  }

  lemma MirroredIsExpected(tool: Tool, b: int, uuid: Uuid, trace: seq<Event>, frags: seq<Fragment>)
    requires Mirrors(tool, b, trace, frags)
    ensures Expected(frags, b, uuid) ==
            if Startable(tool) then (Some(ToolBlock(Identified(tool, uuid).id, tool.name)),
                                     DeliveredTo(trace, b) + tool.pending)
            else Shown(trace, b)
  {
    assert "" + tool.pending == tool.pending;
  }

  lemma CloseToolsShows(s: Info, uuid: Uuid, trace: seq<Event>, b: int)
    requires Shaped(s) && s.last == LastTools
    ensures Shown(trace + CloseBlocks(s, uuid).1, b) == Shown(trace + StartPending(s.tools, uuid).1, b)
  {
    var (tools, started) := StartPending(s.tools, uuid);
    StopsAreSilent(tools, b);
    SilentShows(trace + started, StopStarted(tools), b);
    assert trace + CloseBlocks(s, uuid).1 == (trace + started) + StopStarted(tools);
  }

  lemma CloseToolsClears(s: Info, uuid: Uuid, trace: seq<Event>, frags: seq<Fragment>, b: int)
    requires Shaped(s) && s.last == LastTools && Tracks(s, trace, frags, uuid)
    ensures var trace' := trace + CloseBlocks(s, uuid).1;
            && (b < s.base + |s.tools| && Touched(frags, b) ==> Shown(trace', b) == Expected(frags, b, uuid))
            && (b >= s.base + |s.tools| ==> Shown(trace', b) == NOTHING)
  {
    hide Shown, Expected, CloseBlocks, Mirrors, IdMapAgrees, IndexMapAgrees;
    CloseToolsShows(s, uuid, trace, b);
    StartPendingShows(s.tools, s.base, uuid, trace, b);
    if s.base <= b < s.base + |s.tools| {
      assert Mirrors(s.tools[b - s.base], s.base + (b - s.base), trace, frags);
      MirroredIsExpected(s.tools[b - s.base], b, uuid, trace, frags);
    } else if b >= s.base + |s.tools| {
      assert Shown(trace, b) == NOTHING;
    }
  }

  lemma CloseClears(s: Info, uuid: Uuid, trace: seq<Event>, frags: seq<Fragment>)
    requires Shaped(s) && Tracks(s, trace, frags, uuid)
    ensures Clear(trace + CloseBlocks(s, uuid).1, frags, uuid, NextFree(s))
  {
    var evs := CloseBlocks(s, uuid).1;
    if s.last == LastTools {
      hide Shown, Expected, CloseBlocks, InPhaseMirrors;
      forall b | b < NextFree(s) && Touched(frags, b) ensures Shown(trace + evs, b) == Expected(frags, b, uuid) {
        CloseToolsClears(s, uuid, trace, frags, b);
      }
      forall b | b >= NextFree(s) ensures Shown(trace + evs, b) == NOTHING {
        CloseToolsClears(s, uuid, trace, frags, b);
      }
    } else {
      SilentKeepsClear(s, trace, evs, frags, uuid);
    }
  }

  /** Events of the open prose block, and stops, leave all tool blocks as they are. */
  predicate Prose(evs: seq<Event>, index: int) {
    forall k :: 0 <= k < |evs| ==> (evs[k].BlockStart? || evs[k].BlockDelta? ==> evs[k].index == index)
  }

  lemma SilentKeepsClear(s: Info, trace: seq<Event>, evs: seq<Event>, frags: seq<Fragment>, uuid: Uuid)
    requires Shaped(s) && s.last != LastTools && Tracks(s, trace, frags, uuid)
    requires forall b :: Silent(evs, b)
    ensures Clear(trace + evs, frags, uuid, NextFree(s))
  {
    hide Shown, Expected;
    forall b ensures Shown(trace + evs, b) == Shown(trace, b) {
      SilentShows(trace, evs, b);
    }
    forall b | b < NextFree(s) && Touched(frags, b) ensures Shown(trace + evs, b) == Expected(frags, b, uuid) {
      TouchedBy(frags, b);
      assert Shown(trace, b) == Expected(frags, b, uuid);
    }
    forall b | b >= NextFree(s) ensures Shown(trace + evs, b) == NOTHING {
      assert Shown(trace, b) == NOTHING;
    }
  }

  /** Prose at the first free index makes a state whose open block is that one. */
  lemma ProseTracks(trace: seq<Event>, evs: seq<Event>, frags: seq<Fragment>, uuid: Uuid, index: int)
    requires Settled(trace, frags, uuid, index) && Below(frags, index) && Unused(trace, index + 1) && Prose(evs, index)
    ensures Settled(trace + evs, frags, uuid, index) && Unused(trace + evs, index + 1)
  {
    hide Shown, Expected;
    forall b | b < index && Touched(frags, b) ensures Shown(trace + evs, b) == Expected(frags, b, uuid) {
      SilentShows(trace, evs, b);
      assert Shown(trace, b) == Expected(frags, b, uuid);
    }
    forall b | b >= index + 1 ensures Shown(trace + evs, b) == NOTHING {
      SilentShows(trace, evs, b);
      assert Shown(trace, b) == NOTHING;
    }
  }

  lemma AdvanceTracks(s: Info, uuid: Uuid, trace: seq<Event>, frags: seq<Fragment>)
    requires Shaped(s) && Tracks(s, trace, frags, uuid)
    ensures var (s', evs) := CloseAndAdvance(s, uuid);
            s'.last == LastNone && s'.index == NextFree(s) && Clear(trace + evs, frags, uuid, s'.index)
  {
    if s.last == LastNone {
      assert trace + [] == trace;
    } else {
      CloseClears(s, uuid, trace, frags);
    }
  }

  lemma OpenBlockTracks(s: Info, last: Last, content: Content, uuid: Uuid, trace: seq<Event>, frags: seq<Fragment>)
    requires Shaped(s) && (last == LastText || last == LastThinking) && Tracks(s, trace, frags, uuid)
    ensures var (s', evs) := OpenBlock(s, last, content, uuid);
            s'.last == last && Tracks(s', trace + evs, frags, uuid)
  {
    if s.last == last {
      assert trace + [] == trace;
    } else {
      AdvanceTracks(s, uuid, trace, frags);
      var (s1, evs) := CloseAndAdvance(s, uuid);
      ProseTracks(trace + evs, [BlockStart(s1.index, content)], frags, uuid, s1.index);
      assert trace + OpenBlock(s, last, content, uuid).1 == (trace + evs) + [BlockStart(s1.index, content)];
    }
  }

  /** More prose in the open block. */
  lemma MoreProse(s: Info, uuid: Uuid, trace: seq<Event>, evs: seq<Event>, frags: seq<Fragment>)
    requires Shaped(s) && (s.last == LastText || s.last == LastThinking) && Tracks(s, trace, frags, uuid)
    requires Prose(evs, s.index)
    ensures Tracks(s, trace + evs, frags, uuid)
  {
    ProseTracks(trace, evs, frags, uuid, s.index);
  }

  lemma ProsePartTracks(s: Info, reasoning: string, text: string, uuid: Uuid, trace: seq<Event>, frags: seq<Fragment>)
    requires Shaped(s) && Tracks(s, trace, frags, uuid)
    ensures var (s', evs) := ProsePart(s, reasoning, text, uuid); Tracks(s', trace + evs, frags, uuid)
  {
    hide Tracks;
    if reasoning != "" {
      OpenBlockTracks(s, LastThinking, ThinkingBlock, uuid, trace, frags);
      var (s1, evs) := OpenBlock(s, LastThinking, ThinkingBlock, uuid);
      MoreProse(s1, uuid, trace + evs, [BlockDelta(s1.index, ThinkingDelta(reasoning))], frags);
      assert trace + ProsePart(s, reasoning, text, uuid).1
             == (trace + evs) + [BlockDelta(s1.index, ThinkingDelta(reasoning))];
    } else if text != "" {
      OpenBlockTracks(s, LastText, TextBlock, uuid, trace, frags);
      var (s1, evs) := OpenBlock(s, LastText, TextBlock, uuid);
      MoreProse(s1, uuid, trace + evs, [BlockDelta(s1.index, TextDelta(text))], frags);
      assert trace + ProsePart(s, reasoning, text, uuid).1 == (trace + evs) + [BlockDelta(s1.index, TextDelta(text))];
    } else {
      assert trace + [] == trace;
    }
  }

  lemma {:induction false} CitationsAreProse(index: int, citations: seq<Citation>)
    ensures Prose(CitationDeltas(index, citations), index)
  {
    if citations != [] {
      CitationsAreProse(index, citations[..|citations| - 1]);
    }
  }

  lemma CitationPartTracks(s: Info, citations: seq<Citation>, uuid: Uuid, trace: seq<Event>, frags: seq<Fragment>)
    requires Shaped(s) && Tracks(s, trace, frags, uuid)
    ensures var (s', evs) := CitationPart(s, citations, uuid); Tracks(s', trace + evs, frags, uuid)
  {
    hide Tracks;
    if citations == [] {
      assert trace + [] == trace;
    } else {
      OpenBlockTracks(s, LastText, TextBlock, uuid, trace, frags);
      var (s1, evs) := OpenBlock(s, LastText, TextBlock, uuid);
      CitationsAreProse(s1.index, citations);
      MoreProse(s1, uuid, trace + evs, CitationDeltas(s1.index, citations), frags);
      assert trace + CitationPart(s, citations, uuid).1 == (trace + evs) + CitationDeltas(s1.index, citations);
    }
  }

  // ---- tool phases ----------------------------------------------------------------

  /** Everything known of the fragments so far. */
  ghost predicate Consistent(frags: seq<Fragment>) { IdsAgree(frags) && IndexesAgree(frags) && IdsFixed(frags) }

  lemma EnterTracks(s: Info, uuid: Uuid, trace: seq<Event>, frags: seq<Fragment>)
    requires Shaped(s) && Tracks(s, trace, frags, uuid)
    ensures var (s', evs) := EnterTools(s, uuid); Tracks(s', trace + evs, frags, uuid)
  {
    if s.last == LastTools {
      assert trace + [] == trace;
    } else {
      AdvanceTracks(s, uuid, trace, frags);
      var (s', evs) := EnterTools(s, uuid);
      forall x ensures LastBlock(frags, s'.base, x) == None {
        NoLastBlock(frags, s'.base, x);
      }
    }
  }

  lemma {:induction false} NoLastBlock(frags: seq<Fragment>, phase: int, index: int)
    requires Below(frags, phase)
    ensures LastBlock(frags, phase, index) == None
  {
    if frags != [] {
      NoLastBlock(frags[..|frags| - 1], phase, index);
    }
  }

  lemma {:induction false} DeltasTrack(s: Info, deltas: seq<ToolDelta>, trace: seq<Event>, frags: seq<Fragment>,
                                       uuid: Uuid)
    requires InPhase(s) && Tracks(s, trace, frags, uuid) && Consistent(frags)
    ensures var (s', evs) := ApplyToolDeltas(s, deltas);
            var frags' := frags + DeltaFragments(s, deltas);
            Tracks(s', trace + evs, frags', uuid) && Consistent(frags')
  {
    hide Mirrors, IdMapAgrees, IndexMapAgrees, Settled, Unused, IdsAgree, IndexesAgree, IdsFixed, ApplyToolDelta;
    if deltas == [] {
      assert trace + [] == trace && frags + [] == frags;
    } else {
      var n := |deltas| - 1;
      DeltasTrack(s, deltas[..n], trace, frags, uuid);
      var (s1, evs1) := ApplyToolDeltas(s, deltas[..n]);
      var trace1, frags1 := trace + evs1, frags + DeltaFragments(s, deltas[..n]);
      DeltaTracks(s1, n, deltas[n], trace1, frags1, uuid);
      MirroredIds(s1, trace1, frags1);
      IdsStayFixed(s1, frags1, n, deltas[n]);
      IdsStayAgreed(s1, frags1, n, deltas[n]);
      IndexesStayAgreed(s1, frags1, n, deltas[n]);
      assert trace + ApplyToolDeltas(s, deltas).1 == trace1 + ApplyToolDelta(s1, n, deltas[n]).1;
      assert frags + DeltaFragments(s, deltas) == frags1 + [FragmentOf(s1, n, deltas[n])];
    }
  }

  lemma MirroredIds(s: Info, trace: seq<Event>, frags: seq<Fragment>)
    requires InPhase(s) && InPhaseMirrors(s, trace, frags)
    ensures IdsMirror(s, frags)
  {
    forall p | 0 <= p < |s.tools| ensures s.tools[p].id == IdOf(frags, s.base + p) {
      assert Mirrors(s.tools[p], s.base + p, trace, frags);
    }
  }

  lemma PhaseTracks(s: Info, s': Info, trace: seq<Event>, frags: seq<Fragment>, uuid: Uuid)
    requires InPhase(s) && Tracks(s, trace, frags, uuid)
    requires s' == s.(maxOffset := s'.maxOffset, index := s'.index) && InPhase(s')
    ensures Tracks(s', trace, frags, uuid)
  {
    hide Mirrors, Settled, Unused;
  }

  lemma ToolPartTracks(s: Info, deltas: seq<ToolDelta>, uuid: Uuid, trace: seq<Event>, frags: seq<Fragment>)
    requires Shaped(s) && deltas != [] && Tracks(s, trace, frags, uuid) && Consistent(frags)
    ensures var (s', evs) := ToolPart(s, deltas, uuid);
            var frags' := frags + DeltaFragments(EnterTools(s, uuid).0, deltas);
            Tracks(s', trace + evs, frags', uuid) && Consistent(frags')
  {
    hide Tracks, Consistent, DeltaFragments, ApplyToolDeltas, EnterTools;
    EnterTracks(s, uuid, trace, frags);
    var (s1, evs1) := EnterTools(s, uuid);
    DeltasTrack(s1, deltas, trace + evs1, frags, uuid);
    var (s2, evs2) := ApplyToolDeltas(s1, deltas);
    assert trace + ToolPart(s, deltas, uuid).1 == (trace + evs1) + evs2;
    PhaseTracks(s2, ToolPart(s, deltas, uuid).0, (trace + evs1) + evs2, frags + DeltaFragments(s1, deltas), uuid);
  }

  // ---- chunks and runs -----------------------------------------------------------

  /** After the message ended, every touched block shows what it should. */
  ghost predicate TracksRun(s: Info, trace: seq<Event>, frags: seq<Fragment>, uuid: Uuid)
    requires Shaped(s)
  {
    && Consistent(frags)
    && if s.done then forall b :: Touched(frags, b) ==> Shown(trace, b) == Expected(frags, b, uuid)
       else Tracks(s, trace, frags, uuid)
  }

  lemma ConcludeTracks(s: Info, reason: string, uuid: Uuid, trace: seq<Event>, frags: seq<Fragment>)
    requires Shaped(s) && Tracks(s, trace, frags, uuid) && Consistent(frags)
    ensures var (s', evs) := Conclude(s, reason, uuid); s'.done && TracksRun(s', trace + evs, frags, uuid)
  {
    hide Shown, Expected, Consistent, Tracks;
    CloseClears(s, uuid, trace, frags);
    var closed, ends := trace + CloseBlocks(s, uuid).1, [MessageDelta(reason), MessageStop];
    assert trace + Conclude(s, reason, uuid).1 == closed + ends;
    forall b | Touched(frags, b) ensures Shown(closed + ends, b) == Expected(frags, b, uuid) {
      SilentShows(closed, ends, b);
      TouchedBy(frags, b);
      assert Shown(closed, b) == Expected(frags, b, uuid);
    }
  }

  lemma ChoicePartTracks(s: Info, choice: Choice, uuid: Uuid, trace: seq<Event>, frags: seq<Fragment>)
    requires Shaped(s) && Tracks(s, trace, frags, uuid) && Consistent(frags)
    ensures var (s', evs) := ChoicePart(s, choice, uuid);
            var frags' := frags + (if choice.toolCalls == [] then []
                                   else DeltaFragments(EnterTools(s, uuid).0, choice.toolCalls));
            Tracks(s', trace + evs, frags', uuid) && Consistent(frags')
  {
    hide Tracks, Consistent, DeltaFragments, EnterTools, ToolPart, ProsePart, CitationPart;
    var (s1, evs1) := if choice.toolCalls != [] then ToolPart(s, choice.toolCalls, uuid)
                      else ProsePart(s, choice.reasoning, choice.text, uuid);
    var frags' := frags + (if choice.toolCalls == [] then []
                           else DeltaFragments(EnterTools(s, uuid).0, choice.toolCalls));
    if choice.toolCalls != [] {
      ToolPartTracks(s, choice.toolCalls, uuid, trace, frags);
    } else {
      assert frags' == frags;
      ProsePartTracks(s, choice.reasoning, choice.text, uuid, trace, frags);
    }
    CitationPartTracks(s1, choice.citations, uuid, trace + evs1, frags');
    assert trace + ChoicePart(s, choice, uuid).1 == (trace + evs1) + CitationPart(s1, choice.citations, uuid).1;
  }

  /** Only the tool fields, last and index matter to what a state tracks. */
  lemma SameTracks(s: Info, s': Info, trace: seq<Event>, frags: seq<Fragment>, uuid: Uuid)
    requires Shaped(s) && Shaped(s') && Tracks(s, trace, frags, uuid)
    requires s' == s.(sent := s'.sent, hasUsage := s'.hasUsage, finishReason := s'.finishReason)
    ensures Tracks(s', trace, frags, uuid)
  {
    hide Mirrors, Settled, Unused;
  }

  lemma FinishingTracks(s: Info, choice: Choice, usage: Usage, uuid: Uuid, trace: seq<Event>, frags: seq<Fragment>)
    requires Shaped(s) && !s.done && Tracks(s, trace, frags, uuid) && Consistent(frags)
    ensures var (s', evs) := Finishing(s, choice, usage, uuid); TracksRun(s', trace + evs, frags, uuid)
  {
    hide Tracks, Consistent;
    var s1 := Reported(s, usage);
    SameTracks(s, s1, trace, frags, uuid);
    if Finishes(choice) && s1.hasUsage {
      ConcludeTracks(s1, StopReason(s1.finishReason), uuid, trace, frags);
    } else {
      assert trace + [] == trace;
    }
  }

  lemma ChunkPartTracks(s: Info, chunk: Chunk, uuid: Uuid, trace: seq<Event>, frags: seq<Fragment>)
    requires Shaped(s) && !s.done && Tracks(s, trace, frags, uuid) && Consistent(frags)
    ensures var (s', evs) := ChunkPart(s, chunk, uuid);
            var frags' := frags + (if chunk.choices == [] || chunk.choices[0].toolCalls == [] then []
                                   else DeltaFragments(EnterTools(Noted(s, chunk.choices[0]), uuid).0,
                                                       chunk.choices[0].toolCalls));
            TracksRun(s', trace + evs, frags', uuid)
  {
    hide TracksRun, ChoicePart, Finishing, Conclude, DeltaFragments, EnterTools, Tracks, Consistent, StopReason;
    if chunk.choices == [] {
      assert frags + [] == frags;
      UsageChunkTracks(s, chunk.usage, uuid, trace, frags);
    } else {
      ChoiceChunkTracks(s, chunk.choices[0], chunk.usage, uuid, trace, frags);
      var (s2, evs2) := ChoicePart(Noted(s, chunk.choices[0]), chunk.choices[0], uuid);
      assert trace + ChunkPart(s, chunk, uuid).1
          == (trace + evs2) + Finishing(s2, chunk.choices[0], chunk.usage, uuid).1;
    }
  }

  lemma UsageChunkTracks(s: Info, usage: Usage, uuid: Uuid, trace: seq<Event>, frags: seq<Fragment>)
    requires Shaped(s) && !s.done && Tracks(s, trace, frags, uuid) && Consistent(frags)
    ensures var s1 := Reported(s, usage);
            var (s', evs) := if s1.hasUsage then Conclude(s1, StopReasonOrEnd(s1.finishReason), uuid) else (s1, []);
            TracksRun(s', trace + evs, frags, uuid)
  {
    hide Tracks, Consistent, Conclude, StopReason;
    var s1 := Reported(s, usage);
    SameTracks(s, s1, trace, frags, uuid);
    if s1.hasUsage {
      ConcludeTracks(s1, StopReasonOrEnd(s1.finishReason), uuid, trace, frags);
    } else {
      assert trace + [] == trace;
    }
  }

  lemma ChoiceChunkTracks(s: Info, choice: Choice, usage: Usage, uuid: Uuid, trace: seq<Event>, frags: seq<Fragment>)
    requires Shaped(s) && !s.done && Tracks(s, trace, frags, uuid) && Consistent(frags)
    ensures var (s2, evs2) := ChoicePart(Noted(s, choice), choice, uuid);
            var (s', evs) := Finishing(s2, choice, usage, uuid);
            var frags' := frags + (if choice.toolCalls == [] then []
                                   else DeltaFragments(EnterTools(Noted(s, choice), uuid).0, choice.toolCalls));
            TracksRun(s', trace + evs2 + evs, frags', uuid)
  {
    hide TracksRun, ChoicePart, Finishing, DeltaFragments, EnterTools, Tracks, Consistent;
    var s1 := Noted(s, choice);
    SameTracks(s, s1, trace, frags, uuid);
    ChoicePartTracks(s1, choice, uuid, trace, frags);
    var (s2, evs2) := ChoicePart(s1, choice, uuid);
    var frags' := frags + (if choice.toolCalls == [] then []
                           else DeltaFragments(EnterTools(s1, uuid).0, choice.toolCalls));
    FinishingTracks(s2, choice, usage, uuid, trace + evs2, frags');
  }

  lemma StepTracks(s: Info, chunk: Chunk, uuid: Uuid, trace: seq<Event>, frags: seq<Fragment>)
    requires Shaped(s) && TracksRun(s, trace, frags, uuid)
    ensures var (s', evs) := Step(s, chunk, uuid);
            TracksRun(s', trace + evs, frags + ChunkFragments(s, chunk, uuid), uuid)
  {
    hide Tracks, Consistent, ChunkPart, DeliveredTo, DeltaFragments, EnterTools, Expected, Noted, SameMessage;
    if s.done {
      assert trace + [] == trace && frags + [] == frags;
    } else {
      var (s1, evs1) := OpenMessage(s.(sent := s.sent + 1), chunk.usage);
      SameTracks(s, s1, trace, frags, uuid);
      QuietEvents(s1, trace, evs1, frags, uuid);
      ChunkPartTracks(s1, chunk, uuid, trace + evs1, frags);
      assert trace + Step(s, chunk, uuid).1 == (trace + evs1) + ChunkPart(s1, chunk, uuid).1;
    }
  }

  /** message_start shows nothing of any block. */
  lemma QuietEvents(s: Info, trace: seq<Event>, evs: seq<Event>, frags: seq<Fragment>, uuid: Uuid)
    requires Shaped(s) && Tracks(s, trace, frags, uuid)
    requires evs == [] || evs == [MessageStart]
    ensures Tracks(s, trace + evs, frags, uuid)
  {
    hide Expected, IdMapAgrees, IndexMapAgrees, Shown;
    forall b ensures Shown(trace + evs, b) == Shown(trace, b) {
      SilentShows(trace, evs, b);
    }
    assert Unused(trace + evs, if s.last == LastTools then s.base + |s.tools| else if s.last == LastNone then s.index
                  else s.index + 1);
    assert s.last == LastTools ==> forall p :: 0 <= p < |s.tools| ==> Mirrors(s.tools[p], s.base + p, trace, frags);
  }

  lemma {:induction false} RunTracks(chunks: seq<Chunk>, uuid: Uuid)
    ensures TracksRun(Run(chunks, uuid).0, Run(chunks, uuid).1, Fragments(chunks, uuid), uuid)
  {
    if chunks != [] {
      hide TracksRun, Step;
      var n := |chunks| - 1;
      RunTracks(chunks[..n], uuid);
      StepTracks(Run(chunks[..n], uuid).0, chunks[n], uuid, Run(chunks[..n], uuid).1, Fragments(chunks[..n], uuid));
    }
  }

  /** Within a phase, fragments with ids reach one block exactly when their ids are
      equal, and a fragment without id follows the last one at its index, or begins a block
      when there is none. */
  lemma FragmentsRouteById(chunks: seq<Chunk>, uuid: Uuid)
    ensures IdsAgree(Fragments(chunks, uuid)) && IndexesAgree(Fragments(chunks, uuid))
  {
    RunTracks(chunks, uuid);
  }

  /** In the whole output, a block that received fragments is started under their id
      and name and delivers all of them in order, unless none of them carried a name:
      then it is never started. */
  lemma OutputDeliversTools(chunks: seq<Chunk>, uuid: Uuid, b: int)
    requires Touched(Fragments(chunks, uuid), b)
    ensures Shown(Output(chunks, uuid), b) == Expected(Fragments(chunks, uuid), b, uuid)
  {
    var (s, evs) := Run(chunks, uuid);
    RunTracks(chunks, uuid);
    if s.done {
      assert evs + [] == evs;
    } else {
      ConcludeTracks(s, StopReasonOrEnd(s.finishReason), uuid, evs, Fragments(chunks, uuid));
    }
  }
}
