/** Tool calls through the Responses to Chat converter, whatever their identifiers:
    indexes are dense and in order of appearance, nothing stays aside at the end, and
    arguments are sent exactly once as long as snapshots extend what was sent. */
module ResponsesToChatArguments {
  import opened Basics
  import opened ResponsesDto
  import opened ResponsesToChat
  import opened ResponsesToChatActions
  import opened ToolKeys

  // ---- what a trace shows of its tools ---------------------------------------------------------

  /** The arguments sent under an index, in order. */
  function Emitted(trace: seq<Chunk>, t: int): string {
    if trace == [] then "" else
      var c := trace[|trace| - 1];
      Emitted(trace[..|trace| - 1], t) + if c.ToolChunk? && c.index == t then c.arguments else ""
  }

  /** The least index not used yet. */
  function Seen(trace: seq<Chunk>): nat {
    if trace == [] then 0 else
      var n, c := Seen(trace[..|trace| - 1]), trace[|trace| - 1];
      if c.ToolChunk? && c.index >= n then c.index + 1 else n
  }

  /** Indexes appear first in the order 0, 1, 2, ... */
  predicate Dense(trace: seq<Chunk>) {
    trace == [] ||
    (Dense(trace[..|trace| - 1]) &&
     (trace[|trace| - 1].ToolChunk? ==> trace[|trace| - 1].index <= Seen(trace[..|trace| - 1])))
  }

  lemma Snoc(trace: seq<Chunk>, c: Chunk, t: int)
    ensures Emitted(trace + [c], t) == Emitted(trace, t) + if c.ToolChunk? && c.index == t then c.arguments else ""
    ensures Seen(trace + [c]) == if c.ToolChunk? && c.index >= Seen(trace) then c.index + 1 else Seen(trace)
    ensures Dense(trace + [c]) == (Dense(trace) && (c.ToolChunk? ==> c.index <= Seen(trace)))
  {
    assert (trace + [c])[..|trace|] == trace;
  }

  /** Only tool chunks count. */
  lemma {:induction false} ToolsCount(trace: seq<Chunk>, t: int)
    ensures Emitted(OnlyTools(trace), t) == Emitted(trace, t)
    ensures Seen(OnlyTools(trace)) == Seen(trace) && Dense(OnlyTools(trace)) == Dense(trace)
  {
    if trace != [] {
      var n := |trace| - 1;
      ToolsCount(trace[..n], t);
      assert OnlyTools(trace[..n]) + [] == OnlyTools(trace[..n]);
      assert Emitted(trace[..n], t) + "" == Emitted(trace[..n], t);
      if trace[n].ToolChunk? { Snoc(OnlyTools(trace[..n]), trace[n], t); }
    }
  }

  // ---- the invariants ------------------------------------------------------------------------------

  /** Every tool was shown, in order. */
  predicate Shown(ts: Tools, trace: seq<Chunk>) {
    && Dense(trace) && Seen(trace) == |ts.list|
    && forall t :: 0 <= t < |ts.list| ==> ts.list[t].sent
  }

  /** The cursor stands at the end of the arguments, and exactly these were sent. */
  ghost predicate Synced(ts: Tools, trace: seq<Chunk>) {
    && (forall t :: 0 <= t < |ts.list| ==>
            ts.list[t].argsSentAt == |ts.list[t].arguments| && Emitted(trace, t) == ts.list[t].arguments)
    && (forall t :: t >= |ts.list| ==> Emitted(trace, t) == "")
  }

  /** Tool t, possibly just created, is about to be sent. */
  predicate Poised(ts: Tools, t: nat, trace: seq<Chunk>) {
    && t < |ts.list| && Dense(trace)
    && (Seen(trace) == |ts.list| || (t == Seen(trace) == |ts.list| - 1 && !ts.list[t].sent))
    && forall u :: 0 <= u < |ts.list| && u != t ==> ts.list[u].sent
  }

  /** Tool t has gathered text after what was sent; the others are in step. */
  ghost predicate Ahead(ts: Tools, t: nat, trace: seq<Chunk>) {
    && t < |ts.list|
    && ts.list[t].argsSentAt == |Emitted(trace, t)| && Emitted(trace, t) <= ts.list[t].arguments
    && (forall u :: 0 <= u < |ts.list| && u != t ==>
            ts.list[u].argsSentAt == |ts.list[u].arguments| && Emitted(trace, u) == ts.list[u].arguments)
    && (forall u :: u >= |ts.list| ==> Emitted(trace, u) == "")
  }

  // ---- sending ---------------------------------------------------------------------------------------

  lemma SendShows(ts: Tools, t: nat, explicit: string, trace: seq<Chunk>)
    requires Linked(ts) && Poised(ts, t, trace) && (explicit != "" ==> ts.list[t].sent)
    ensures Shown(Send(ts, t, explicit).0, trace + Send(ts, t, explicit).1)
  {
    hide Dense, Emitted, Linked, Seen, Text.IsSpace, Text.SignedDecimal, Text.Trim, Unsent;
    var (ts', chunks) := Send(ts, t, explicit);
    if chunks == [] {
      assert trace + [] == trace;
    } else {
      Snoc(trace, chunks[0], 0);
    }
  }

  lemma SendEmits(ts: Tools, t: nat, explicit: string, trace: seq<Chunk>, u: int)
    requires Linked(ts) && t < |ts.list|
    ensures var delta := if explicit == "" then Unsent(ts.list[t]) else explicit;
            var (ts', chunks) := Send(ts, t, explicit);
            && Emitted(trace + chunks, u) == Emitted(trace, u) + (if u == t then delta else "")
            && ts'.list[t].arguments == ts.list[t].arguments
            && ts'.list[t].argsSentAt == ts.list[t].argsSentAt + |delta|
            && forall v :: 0 <= v < |ts.list| && v != t ==> ts'.list[v] == ts.list[v]
  {
    var (ts', chunks) := Send(ts, t, explicit);
    if chunks == [] {
      assert trace + [] == trace;
    } else {
      Snoc(trace, chunks[0], u);
    }
  }

  /** What was gathered is what is sent, so the tool is in step again. */
  lemma SendSyncs(ts: Tools, t: nat, explicit: string, trace: seq<Chunk>)
    requires Linked(ts) && Ahead(ts, t, trace)
    requires explicit != "" ==> ts.list[t].arguments == Emitted(trace, t) + explicit
    ensures Synced(Send(ts, t, explicit).0, trace + Send(ts, t, explicit).1)
  {
    hide Send, Emitted;
    var (ts', chunks) := Send(ts, t, explicit);
    forall u
      ensures Emitted(trace + chunks, u) == Emitted(trace, u)
              + (if u == t then if explicit == "" then Unsent(ts.list[t]) else explicit else "")
    {
      SendEmits(ts, t, explicit, trace, u);
    }
    SendEmits(ts, t, explicit, trace, t);
    var e := Emitted(trace, t);
    assert e + ts.list[t].arguments[|e|..] == ts.list[t].arguments;
  }

  // ---- tool steps -------------------------------------------------------------------------------------

  /** The item's tool may gather text that was kept aside; no other tool changes. */
  lemma EnsureSays(ts: Tools, event: StreamEvent, key: Key)
    requires Linked(ts) && event.item.Some?
    ensures var (ts1, t) := EnsureTool(ts, event, key);
            && t == Locate(ts, event, key) && |ts1.list| == (if t < |ts.list| then |ts.list| else |ts.list| + 1)
            && (forall u :: 0 <= u < |ts.list| && u != t ==> ts1.list[u] == ts.list[u])
            && (t < |ts.list| ==>
                  && ts1.list[t].argsSentAt == ts.list[t].argsSentAt && ts1.list[t].sent == ts.list[t].sent
                  && ts.list[t].arguments <= ts1.list[t].arguments)
            && (t == |ts.list| ==> ts1.list[t].argsSentAt == 0 && !ts1.list[t].sent)
  {
    hide Locate, PendingAtOutput, PendingAtItem, CallIdOf, ItemIdOf;
  }

  lemma EnsurePoises(ts: Tools, event: StreamEvent, key: Key, trace: seq<Chunk>)
    requires Linked(ts) && Shown(ts, trace) && event.item.Some?
    ensures Poised(EnsureTool(ts, event, key).0, EnsureTool(ts, event, key).1, trace)
  {
    hide EnsureTool, Locate, Dense, Seen;
    EnsureSays(ts, event, key);
  }

  lemma FallbackPoises(ts: Tools, event: StreamEvent, key: Key, trace: seq<Chunk>)
    requires Linked(ts) && Shown(ts, trace)
    ensures Poised(EnsureFallback(ts, event, key).0, EnsureFallback(ts, event, key).1, trace)
  {
  }

  lemma ToolStepShows(ts: Tools, event: StreamEvent, trace: seq<Chunk>)
    requires Linked(ts) && Shown(ts, trace) && IsToolEvent(event)
    ensures Shown(ToolStep(ts, event).0, trace + ToolStep(ts, event).1)
  {
    hide Send, EnsureTool, EnsureFallback, Find, KeyFor, FallbackKey, Dense, Seen;
    assert trace + [] == trace;
    if event.eventType.ArgumentsDelta? {
      var t := Find(ts, event);
      if event.delta != "" && t.Some? {
        SendShows(WithArguments(ts, t.value, ts.list[t.value].arguments + event.delta), t.value, event.delta, trace);
      }
    } else if event.eventType.ArgumentsDone? {
      var t := Find(ts, event);
      if t.Some? {
        SendShows(ts, t.value, "", trace);
      } else if FallbackKey(event).Some? {
        FallbackPoises(ts, event, FallbackKey(event).value, trace);
        var (ts1, t1) := EnsureFallback(ts, event, FallbackKey(event).value);
        SendShows(ts1, t1, "", trace);
      }
    } else if KeyFor(event).Some? {
      EnsurePoises(ts, event, KeyFor(event).value, trace);
      var (ts1, t) := EnsureTool(ts, event, KeyFor(event).value);
      var arguments := event.item.value.arguments;
      SendShows(if arguments != "" then WithArguments(ts1, t, arguments) else ts1, t, "", trace);
    }
  }

  lemma {:induction false} FlushKeysShow(ts: Tools, keys: seq<Key>, trace: seq<Chunk>)
    requires Linked(ts) && Shown(ts, trace)
    ensures Shown(FlushKeys(ts, keys).0, trace + FlushKeys(ts, keys).1)
  {
    hide Send, TakePending, Shown;
    if keys == [] {
      assert trace + [] == trace;
    } else {
      var n := |keys| - 1;
      FlushKeysShow(ts, keys[..n], trace);
      var (ts1, chunks1) := FlushKeys(ts, keys[..n]);
      var (ts2, t) := TakePending(ts1, keys[n]);
      TakePoises(ts1, keys[n], trace + chunks1);
      SendShows(ts2, t, "", trace + chunks1);
      assert trace + (chunks1 + Send(ts2, t, "").1) == (trace + chunks1) + Send(ts2, t, "").1;
    }
  }

  lemma TakePoises(ts: Tools, key: Key, trace: seq<Chunk>)
    requires Linked(ts) && Shown(ts, trace)
    ensures Poised(TakePending(ts, key).0, TakePending(ts, key).1, trace)
  {
  }

  lemma {:induction false} PlayShows(actions: seq<Action>)
    requires Playable(actions)
    ensures Shown(Play(actions).0, Play(actions).1)
  {
    hide ToolStep, FlushAll, Shown;
    if actions == [] {
      NothingShown();
    } else {
      var n := |actions| - 1;
      PlayShows(actions[..n]);
      var (ts, trace) := Play(actions[..n]);
      match actions[n]
      case OnTool(event) => ToolStepShows(ts, event, trace);
      case FlushTools => FlushAllShows(ts, trace);
    }
  }

  lemma NothingShown()
    ensures Shown(NO_TOOLS, [])
  {
  }

  lemma FlushAllShows(ts: Tools, trace: seq<Chunk>)
    requires Linked(ts) && Shown(ts, trace)
    ensures Shown(FlushAll(ts).0, trace + FlushAll(ts).1)
  {
    FlushKeysShow(ts, Sorted(AllKeys(ts)), trace);
  }

  /** Tool indexes are dense and first appear in order, in every error-free stream and
      whatever identifiers its events carry; no tool goes unsent. */
  lemma IndexesAreDense(events: seq<StreamEvent>, includeUsage: bool)
    requires Run(events, includeUsage).Some?
    ensures Dense(Output(events, includeUsage))
    ensures Seen(Output(events, includeUsage)) == |Play(AllActions(events)).0.list|
  {
    OutputPlays(events, includeUsage);
    PlayShows(AllActions(events));
    ToolsCount(Output(events, includeUsage), 0);
  }

  // ---- nothing stays aside ------------------------------------------------------------------------------

  lemma TakeForgets(ts: Tools, key: Key)
    requires Linked(ts)
    ensures FlushKey(ts, key).0.pendingOutput == Forget(ts, key).pendingOutput
    ensures FlushKey(ts, key).0.pendingItem == Forget(ts, key).pendingItem
  {
    hide Send;
    var (ts1, t) := TakePending(ts, key);
    SendKeepsPending(ts1, t);
  }

  lemma SendKeepsPending(ts: Tools, t: nat)
    requires Linked(ts) && t < |ts.list|
    ensures Send(ts, t, "").0.pendingOutput == ts.pendingOutput && Send(ts, t, "").0.pendingItem == ts.pendingItem
  {
  }

  lemma {:induction false} FlushKeysForget(ts: Tools, keys: seq<Key>)
    requires Linked(ts)
    ensures forall i :: i in FlushKeys(ts, keys).0.pendingOutput ==> i in ts.pendingOutput && OutputKey(i) !in keys
    ensures forall i :: i in FlushKeys(ts, keys).0.pendingItem ==> i in ts.pendingItem && ItemKey(i) !in keys
  {
    hide FlushKey;
    if keys != [] {
      var n := |keys| - 1;
      FlushKeysForget(ts, keys[..n]);
      TakeForgets(FlushKeys(ts, keys[..n]).0, keys[n]);
      assert forall k :: k in keys <==> k in keys[..n] || k == keys[n];
    }
  }

  /** After the finalizer nothing is pending, in every error-free stream. */
  lemma NothingStaysPending(ts: Tools)
    requires Linked(ts)
    ensures FlushAll(ts).0.pendingOutput == map[] && FlushAll(ts).0.pendingItem == map[]
  {
    hide FlushKeys, Linked;
    var keys := Sorted(AllKeys(ts));
    FlushKeysForget(ts, keys);
    forall i | i in ts.pendingOutput ensures OutputKey(i) in keys { assert OutputKey(i) in AllKeys(ts); }
    forall i | i in ts.pendingItem ensures ItemKey(i) in keys { assert ItemKey(i) in AllKeys(ts); }
    assert forall i :: i !in FlushAll(ts).0.pendingOutput;
    assert forall i :: i !in FlushAll(ts).0.pendingItem;
  }

  // ---- exactly once ------------------------------------------------------------------------------------------

  /** An item with arguments must extend what its tool, if it exists, has sent. */
  predicate SnapshotExtends(ts: Tools, event: StreamEvent)
    requires Linked(ts) && IsToolEvent(event)
  {
    IsToolItem(event) && !event.eventType.ArgumentsDelta? && !event.eventType.ArgumentsDone?
    && KeyFor(event).Some? && event.item.value.arguments != "" ==>
      var t := Locate(ts, event, KeyFor(event).value);
      t < |ts.list| ==> ts.list[t].arguments <= event.item.value.arguments
  }

  lemma EnsureAhead(ts: Tools, event: StreamEvent, key: Key, trace: seq<Chunk>)
    requires Linked(ts) && Synced(ts, trace) && event.item.Some?
    ensures var (ts1, t) := EnsureTool(ts, event, key);
            && Ahead(ts1, t, trace) && t == Locate(ts, event, key)
            && Emitted(trace, t) == if t < |ts.list| then ts.list[t].arguments else ""
  {
    hide Emitted, Locate, EnsureTool;
    EnsureSays(ts, event, key);
  }

  lemma FallbackAhead(ts: Tools, event: StreamEvent, key: Key, trace: seq<Chunk>)
    requires Linked(ts) && Synced(ts, trace)
    ensures Ahead(EnsureFallback(ts, event, key).0, EnsureFallback(ts, event, key).1, trace)
  {
    hide Emitted;
  }

  lemma TakeAhead(ts: Tools, key: Key, trace: seq<Chunk>)
    requires Linked(ts) && Synced(ts, trace)
    ensures Ahead(TakePending(ts, key).0, TakePending(ts, key).1, trace)
  {
    hide Emitted, PendingFor;
  }

  lemma SyncedIsAhead(ts: Tools, t: nat, trace: seq<Chunk>)
    requires Linked(ts) && Synced(ts, trace) && t < |ts.list|
    ensures Ahead(ts, t, trace)
  {
  }

  lemma AppendAhead(ts: Tools, t: nat, delta: string, trace: seq<Chunk>)
    requires Linked(ts) && Synced(ts, trace) && t < |ts.list|
    ensures Ahead(WithArguments(ts, t, ts.list[t].arguments + delta), t, trace)
    ensures ts.list[t].arguments == Emitted(trace, t)
  {
    hide Emitted;
  }

  lemma ReplaceAhead(ts: Tools, t: nat, arguments: string, trace: seq<Chunk>)
    requires Linked(ts) && Ahead(ts, t, trace) && Emitted(trace, t) <= arguments
    ensures Ahead(WithArguments(ts, t, arguments), t, trace)
  {
    hide Emitted;
  }

  lemma ToolStepSyncs(ts: Tools, event: StreamEvent, trace: seq<Chunk>)
    requires Linked(ts) && Synced(ts, trace) && IsToolEvent(event) && SnapshotExtends(ts, event)
    ensures Synced(ToolStep(ts, event).0, trace + ToolStep(ts, event).1)
  {
    hide Send, EnsureTool, EnsureFallback, Find, KeyFor, FallbackKey, Ahead, Emitted, Locate;
    assert trace + [] == trace;
    if event.eventType.ArgumentsDelta? {
      var t := Find(ts, event);
      if event.delta != "" && t.Some? {
        AppendAhead(ts, t.value, event.delta, trace);
        SendSyncs(WithArguments(ts, t.value, ts.list[t.value].arguments + event.delta), t.value, event.delta, trace);
      }
    } else if event.eventType.ArgumentsDone? {
      var t := Find(ts, event);
      if t.Some? {
        SyncedIsAhead(ts, t.value, trace);
        SendSyncs(ts, t.value, "", trace);
      } else if FallbackKey(event).Some? {
        FallbackAhead(ts, event, FallbackKey(event).value, trace);
        var (ts1, t1) := EnsureFallback(ts, event, FallbackKey(event).value);
        SendSyncs(ts1, t1, "", trace);
      }
    } else if KeyFor(event).Some? {
      EnsureAhead(ts, event, KeyFor(event).value, trace);
      var (ts1, t) := EnsureTool(ts, event, KeyFor(event).value);
      var arguments := event.item.value.arguments;
      if arguments != "" { ReplaceAhead(ts1, t, arguments, trace); }
      SendSyncs(if arguments != "" then WithArguments(ts1, t, arguments) else ts1, t, "", trace);
    }
  }

  /** One snapshot, exactly: sent and gathered agree afterwards if and only if the
      snapshot extends what was sent before. */
  lemma SnapshotSyncs(ts: Tools, event: StreamEvent, trace: seq<Chunk>)
    requires Linked(ts) && Synced(ts, trace) && event.item.Some? && KeyFor(event).Some?
             && event.item.value.arguments != ""
    ensures Synced(ToolItem(ts, event).0, trace + ToolItem(ts, event).1) <==>
            Emitted(trace, Locate(ts, event, KeyFor(event).value)) <= event.item.value.arguments
  {
    hide Send, EnsureTool, KeyFor, Ahead, Emitted, Locate;
    EnsureAhead(ts, event, KeyFor(event).value, trace);
    var (ts1, t) := EnsureTool(ts, event, KeyFor(event).value);
    var arguments := event.item.value.arguments;
    var ts2 := WithArguments(ts1, t, arguments);
    if Emitted(trace, t) <= arguments {
      ReplaceAhead(ts1, t, arguments, trace);
      SendSyncs(ts2, t, "", trace);
    } else {
      SendEmits(ts2, t, "", trace, t);
      assert Emitted(trace, t) <= Emitted(trace + Send(ts2, t, "").1, t);
    }
  }

  function ItemEvent(arguments: string): StreamEvent {
    StreamEvent(ItemDone, None, "", None, None, Some(Item(ToolType, "", "", "f", "", [], [], arguments)), NoAnnotation,
                Some(0), "")
  }

  /** What an item with arguments does to its tool: the arguments become the item's, and what they
      have beyond the cursor is sent. */
  lemma ItemEmits(ts: Tools, event: StreamEvent, key: Key, trace: seq<Chunk>)
    requires Linked(ts) && event.item.Some? && KeyFor(event) == Some(key) && event.item.value.arguments != ""
    ensures var (ts', chunks) := ToolItem(ts, event);
            var t, arguments := Locate(ts, event, key), event.item.value.arguments;
            var sentAt := if t < |ts.list| then ts.list[t].argsSentAt else 0;
            var rest := if |arguments| > sentAt then arguments[sentAt..] else "";
            && |ts'.list| == (if t < |ts.list| then |ts.list| else |ts.list| + 1)
            && ts'.list[t].arguments == arguments && ts'.list[t].argsSentAt == sentAt + |rest|
            && key in ts'.byKey && ts'.byKey[key] == t
            && Emitted(trace + chunks, t) == Emitted(trace, t) + rest
  {
    hide Send, EnsureTool, KeyFor, Emitted, Locate;
    var (ts1, t) := EnsureTool(ts, event, key);
    EnsureSays(ts, event, key);
    EnsureKnows(ts, event, key);
    var ts2 := WithArguments(ts1, t, event.item.value.arguments);
    SendEmits(ts2, t, "", trace, t);
    SendKeepsKeys(ts2, t);
  }

  lemma EnsureKnows(ts: Tools, event: StreamEvent, key: Key)
    requires Linked(ts) && event.item.Some?
    ensures var (ts1, t) := EnsureTool(ts, event, key); key in ts1.byKey && ts1.byKey[key] == t
  {
    hide Locate, AttachedTool, DescribedTool;
  }

  lemma SendKeepsKeys(ts: Tools, t: nat)
    requires Linked(ts) && t < |ts.list|
    ensures Send(ts, t, "").0.byKey == ts.byKey && |Send(ts, t, "").0.list| == |ts.list|
  {
    hide SentTool, SentChunk;
  }

  lemma {:induction false} PlayItem(actions: seq<Action>, event: StreamEvent)
    requires Playable(actions) && IsToolItem(event) && event.eventType.ItemDone?
    ensures Playable(actions + [OnTool(event)])
    ensures var (ts, trace) := Play(actions); var (ts', chunks) := ToolItem(ts, event);
            Play(actions + [OnTool(event)]) == (ts', trace + chunks)
  {
    hide ToolItem;
    assert (actions + [OnTool(event)])[..|actions|] == actions;
  }

  /** For instance an item that says "ab" and then "x" leaves the client with "ab". */
  lemma SnapshotIsMissed(first: StreamEvent, second: StreamEvent)
    requires first == ItemEvent("ab") && second == ItemEvent("x")
    ensures var actions := [OnTool(first), OnTool(second)];
            && Playable(actions) && |Play(actions).0.list| == 1
            && Play(actions).0.list[0].arguments == "x" && Emitted(Play(actions).1, 0) == "ab"
  {
    hide ToolItem, Play, Locate, Emitted, Playable;
    var key := OutputKey(0);
    assert [] + [OnTool(first)] == [OnTool(first)];
    assert [OnTool(first)] + [OnTool(second)] == [OnTool(first), OnTool(second)];
    NothingLocated(first, key);
    PlayItem([], first);
    ItemEmits(NO_TOOLS, first, key, []);
    var (ts, trace) := Play([OnTool(first)]);
    LocatedAgain(ts, second, key);
    PlayItem([OnTool(first)], second);
    ItemEmits(ts, second, key, trace);
  }

  lemma LocatedAgain(ts: Tools, event: StreamEvent, key: Key)
    requires Linked(ts) && key in ts.byKey
    ensures Locate(ts, event, key) == ts.byKey[key]
  {
  }

  lemma NothingLocated(event: StreamEvent, key: Key)
    ensures Locate(NO_TOOLS, event, key) == 0 && Playable([]) && Play([]) == (NO_TOOLS, []) && Emitted([], 0) == ""
  {
  }

  lemma {:induction false} FlushKeysSync(ts: Tools, keys: seq<Key>, trace: seq<Chunk>)
    requires Linked(ts) && Synced(ts, trace)
    ensures Synced(FlushKeys(ts, keys).0, trace + FlushKeys(ts, keys).1)
  {
    hide Send, TakePending, Synced, Ahead;
    if keys == [] {
      assert trace + [] == trace;
    } else {
      var n := |keys| - 1;
      FlushKeysSync(ts, keys[..n], trace);
      var (ts1, chunks1) := FlushKeys(ts, keys[..n]);
      var (ts2, t) := TakePending(ts1, keys[n]);
      TakeAhead(ts1, keys[n], trace + chunks1);
      SendSyncs(ts2, t, "", trace + chunks1);
      assert trace + (chunks1 + Send(ts2, t, "").1) == (trace + chunks1) + Send(ts2, t, "").1;
    }
  }

  lemma FlushAllSyncs(ts: Tools, trace: seq<Chunk>)
    requires Linked(ts) && Synced(ts, trace)
    ensures Synced(FlushAll(ts).0, trace + FlushAll(ts).1)
  {
    FlushKeysSync(ts, Sorted(AllKeys(ts)), trace);
  }

  /** Every snapshot of a stream extends what its tool has sent by then. */
  ghost predicate SnapshotsExtend(actions: seq<Action>)
    requires Playable(actions)
  {
    forall k :: 0 <= k < |actions| && actions[k].OnTool? ==> SnapshotExtends(Play(actions[..k]).0, actions[k].event)
  }

  lemma {:induction false} PlaySyncs(actions: seq<Action>)
    requires Playable(actions) && SnapshotsExtend(actions)
    ensures Synced(Play(actions).0, Play(actions).1)
  {
    hide ToolStep, FlushAll, Synced, SnapshotExtends;
    if actions == [] {
      NothingSynced();
    } else {
      var n := |actions| - 1;
      forall k | 0 <= k < n && actions[..n][k].OnTool?
        ensures SnapshotExtends(Play(actions[..n][..k]).0, actions[..n][k].event)
      {
        assert actions[..n][..k] == actions[..k];
      }
      PlaySyncs(actions[..n]);
      var (ts, trace) := Play(actions[..n]);
      match actions[n]
      case OnTool(event) => ToolStepSyncs(ts, event, trace);
      case FlushTools => FlushAllSyncs(ts, trace);
    }
  }

  lemma NothingSynced()
    ensures Synced(NO_TOOLS, [])
  {
  }

  /** After every step of a stream whose snapshots extend what was sent, each tool's
      cursor is at the end of its arguments and its chunks add up to them. */
  lemma ArgumentsAreSent(events: seq<StreamEvent>, includeUsage: bool, t: nat)
    requires Run(events, includeUsage).Some? && SnapshotsExtend(Actions(events))
    requires t < |Run(events, includeUsage).value.0.tools.list|
    ensures var (s, trace) := Run(events, includeUsage).value;
            var tool := s.tools.list[t];
            tool.argsSentAt == |tool.arguments| && Emitted(trace, t) == tool.arguments
  {
    hide Run, Play, Actions;
    RunPlays(events, includeUsage);
    PlaySyncs(Actions(events));
    ToolsCount(Run(events, includeUsage).value.1, t);
  }

  /** And so it is in the whole output. */
  lemma OutputSendsArguments(events: seq<StreamEvent>, includeUsage: bool, t: nat)
    requires Run(events, includeUsage).Some? && SnapshotsExtend(AllActions(events))
    requires t < |Play(AllActions(events)).0.list|
    ensures Emitted(Output(events, includeUsage), t) == Play(AllActions(events)).0.list[t].arguments
  {
    hide Run, Play, AllActions;
    OutputPlays(events, includeUsage);
    PlaySyncs(AllActions(events));
    ToolsCount(Output(events, includeUsage), t);
  }
}
