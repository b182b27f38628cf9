/** With consistent identifiers, the Responses to Chat converter makes exactly one Chat
    tool call of every upstream item, under whatever names its events reach it, and sends
    it what the item's events say, in the order in which the item becomes known to them. */
module ResponsesToChatIdentity {
  import opened Basics
  import opened ResponsesDto
  import opened ResponsesToChat
  import opened ResponsesToChatActions
  import opened ResponsesToChatArguments
  import opened ResponsesToChatNames
  import opened ToolKeys
  import Text

  // ---- what a client is sent of an item ----------------------------------------------------

  /** The arguments gathered for an item, and those sent for it. */
  datatype Account = Account(text: string, sent: string)

  const EMPTY := Account("", "")

  /** What was sent, with what the text has beyond that length. */
  function CatchUp(sent: string, text: string): string {
    if |text| > |sent| then sent + text[|sent|..] else sent
  }

  predicate HasSnapshot(e: StreamEvent) { IsItemEvent(e) && e.item.value.arguments != "" }

  /** The waiting arguments that an event's names bring in, those under the output index first. */
  function Brought(waiting: map<Key, string>, e: StreamEvent): string {
    (if e.outputIndex.Some? then TextAt(waiting, OutputKey(e.outputIndex.value)) else "")
    + if ItemIdOf(e) != "" then TextAt(waiting, ItemKey(ItemIdOf(e))) else ""
  }

  /** An event about an item. */
  function AccountAfter(names: set<Key>, waiting: map<Key, string>, account: Account, e: StreamEvent): Account {
    if Enrols(names, e) then
      var text := if HasSnapshot(e) then e.item.value.arguments else account.text + Brought(waiting, e);
      Account(text, CatchUp(account.sent, text))
    else if e.eventType.ArgumentsDone? then Account(account.text, CatchUp(account.sent, account.text))
    else if Recognised(names, e) then Account(account.text + e.delta, account.sent + e.delta)
    else account
  }

  function AccountOf(table: Table, events: seq<StreamEvent>, who: Key): Account {
    if events == [] then EMPTY else
      var before, e := events[..|events| - 1], events[|events| - 1];
      var account := AccountOf(table, before, who);
      if Who(table, e) == who then AccountAfter(Names(before), Waiting(before), account, e) else account
  }

  lemma AccountSnoc(table: Table, events: seq<StreamEvent>, e: StreamEvent, who: Key)
    ensures AccountOf(table, events + [e], who) ==
            if Who(table, e) == who
            then AccountAfter(Names(events), Waiting(events), AccountOf(table, events, who), e)
            else AccountOf(table, events, who)
  {
    assert (events + [e])[..|events|] == events;
  }

  // ---- the converter's maps hold the names ------------------------------------------------------

  /** Every key leads to the tool of the item it stands for. */
  ghost predicate Leads(table: Table, ts: Tools, owners: seq<Key>)
    requires Linked(ts)
  {
    && |owners| == |ts.list|
    && (forall k :: k in ts.byKey ==> owners[ToolAt(ts, k)] == KeyWho(table, k))
    && (forall x :: x in ts.itemKeys ==> owners[ToolAt(ts, ts.itemKeys[x])] == WhoItem(table, x))
    && (forall c :: c in ts.callKeys ==> owners[ToolAt(ts, ts.callKeys[c])] == WhoCall(table, c))
  }

  ghost predicate Knows(ts: Tools, names: set<Key>) {
    (forall k :: k in ts.byKey ==> k in names) && KnowsIndexes(ts, names) && KnowsIds(ts, names)
  }

  ghost predicate KnowsIndexes(ts: Tools, names: set<Key>) {
    && (forall i :: i in ts.outputKeys ==> ts.outputKeys[i] == OutputKey(i))
    && (forall i :: OutputKey(i) in names <==> i in ts.outputKeys)
  }

  ghost predicate KnowsIds(ts: Tools, names: set<Key>) {
    && (forall x :: ItemKey(x) in names <==> x in ts.itemKeys)
    && (forall c :: CallKey(c) in names <==> c in ts.callKeys)
  }

  ghost predicate SetAside(ts: Tools, waiting: map<Key, string>) {
    && (forall i :: i in ts.pendingOutput <==> OutputKey(i) in waiting)
    && (forall i :: i in ts.pendingOutput ==> ts.pendingOutput[i] == waiting[OutputKey(i)])
    && (forall x :: x in ts.pendingItem <==> ItemKey(x) in waiting)
    && (forall x :: x in ts.pendingItem ==> ts.pendingItem[x] == waiting[ItemKey(x)])
  }

  ghost predicate Named(table: Table, ts: Tools, names: set<Key>, owners: seq<Key>, waiting: map<Key, string>)
    requires Linked(ts)
  {
    Leads(table, ts, owners) && Knows(ts, names) && SetAside(ts, waiting)
  }

  /** The item of an event has a tool exactly if the event is recognised, and that tool is found. */
  lemma LocateIs(table: Table, ts: Tools, names: set<Key>, owners: seq<Key>, e: StreamEvent)
    requires Linked(ts) && Leads(table, ts, owners) && Knows(ts, names)
    requires IsItemEvent(e) && Consistent(table, e)
    ensures KeyFor(e).Some?
    ensures var t := Locate(ts, e, KeyFor(e).value);
            && (t < |ts.list| <==> Recognised(names, e)) && (t < |ts.list| ==> owners[t] == Who(table, e))
  {
    hide Who, Consistent, Recognised, Text.Trim, IsToolEvent, KeyFor, WhoItem, WhoCall, ItemIdOf, CallIdOf, Told;
    NamedSo(table, e);
    var key := KeyFor(e).value;
    SameWho(table, e, key);
    KeyIsTold(e);
    if ItemIdOf(e) != "" { SameWho(table, e, ItemKey(ItemIdOf(e))); }
    if CallIdOf(e) != "" { SameWho(table, e, CallKey(CallIdOf(e))); }
    LocateAsks(ts, names, e, key);
  }

  lemma KeyIsTold(e: StreamEvent)
    ensures ItemIdOf(e) != "" ==> ItemKey(ItemIdOf(e)) in Told(e)
    ensures IsItemEvent(e) && CallIdOf(e) != "" ==> CallKey(CallIdOf(e)) in Told(e)
    ensures e.outputIndex.Some? ==> OutputKey(e.outputIndex.value) in Told(e)
  {
    hide ItemIdOf, CallIdOf, IsItemEvent;
  }

  lemma LocateAsks(ts: Tools, names: set<Key>, e: StreamEvent, key: Key)
    requires Linked(ts) && Knows(ts, names) && IsItemEvent(e) && key in Told(e)
    requires e.outputIndex.Some? ==> key == OutputKey(e.outputIndex.value)
    ensures Locate(ts, e, key) < |ts.list| <==> Recognised(names, e)
  {
    hide ItemIdOf, CallIdOf, IsItemEvent;
    if Locate(ts, e, key) < |ts.list| {
      if key in ts.byKey {
        assert key in Asked(e) && key in names;
      } else if ToolAtItem(ts, ItemIdOf(e)).Some? {
        assert ItemKey(ItemIdOf(e)) in Asked(e) && ItemKey(ItemIdOf(e)) in names;
      } else {
        assert CallKey(CallIdOf(e)) in Asked(e) && CallKey(CallIdOf(e)) in names;
      }
    }
  }

  lemma FindIs(table: Table, ts: Tools, names: set<Key>, owners: seq<Key>, e: StreamEvent)
    requires Linked(ts) && Leads(table, ts, owners) && Knows(ts, names)
    requires IsToolEvent(e) && !IsItemEvent(e) && Consistent(table, e)
    ensures var t := Find(ts, e);
            (t.Some? <==> Recognised(names, e)) && (t.Some? ==> owners[t.value] == Who(table, e))
  {
    hide Who, Text.Trim, IsToolEvent, WhoItem, WhoCall, ItemIdOf, CallIdOf, IsItemEvent, Told, Recognised, KeyFor;
    NamedSo(table, e);
    var id := Text.Trim(e.itemId);
    if e.outputIndex.Some? { SameWho(table, e, OutputKey(e.outputIndex.value)); }
    if id != "" { SameWho(table, e, ItemKey(id)); }
    FindAsks(ts, names, e);
  }

  lemma FindAsks(ts: Tools, names: set<Key>, e: StreamEvent)
    requires Linked(ts) && Knows(ts, names) && !IsItemEvent(e)
    requires e.outputIndex.Some? ==> KeyFor(e) == Some(OutputKey(e.outputIndex.value))
    requires e.outputIndex.None? ==> e.item.None?
    ensures Find(ts, e).Some? <==> Recognised(names, e)
  {
    hide Text.Trim, IsItemEvent, KeyFor;
    var id := Text.Trim(e.itemId);
    if e.outputIndex.Some? && OutputKey(e.outputIndex.value) in names {
      assert OutputKey(e.outputIndex.value) in Asked(e);
    } else if id != "" && ItemKey(id) in names {
      assert ItemKey(id) in Asked(e);
    }
  }

  // ---- making an item's names known ---------------------------------------------------------------

  function Joined<T>(all: seq<T>, t: nat, one: T): seq<T> {
    if t < |all| then all[t := one] else all + [one]
  }

  /** The tool at t, created if t is past the end, goes by every name the event gives. */
  predicate Enrolled(ts: Tools, t: nat, key: Key, e: StreamEvent, ts': Tools) {
    var id, call := ItemIdOf(e), if IsItemEvent(e) then CallIdOf(e) else "";
    && ts'.byKey == ts.byKey[key := t]
    && ts'.outputKeys == (if e.outputIndex.Some? then ts.outputKeys[e.outputIndex.value := key] else ts.outputKeys)
    && ts'.itemKeys == (if id != "" then ts.itemKeys[id := key] else ts.itemKeys)
    && ts'.callKeys == (if call != "" then ts.callKeys[call := key] else ts.callKeys)
    && ts'.pendingOutput == (if e.outputIndex.Some? then ts.pendingOutput - {e.outputIndex.value} else ts.pendingOutput)
    && ts'.pendingItem == (if id != "" then ts.pendingItem - {id} else ts.pendingItem)
    && t <= |ts.list| && |ts'.list| == if t < |ts.list| then |ts.list| else |ts.list| + 1
  }

  lemma ItemEnrols(ts: Tools, e: StreamEvent, key: Key)
    requires Linked(ts) && e.item.Some? && IsItemEvent(e)
    ensures Enrolled(ts, Locate(ts, e, key), key, e, EnsureTool(ts, e, key).0)
  {
    hide Locate, AttachedTool, DescribedTool, ItemIdOf, CallIdOf, IsItemEvent;
  }

  lemma FallbackEnrols(ts: Tools, e: StreamEvent, key: Key)
    requires Linked(ts) && !IsItemEvent(e) && key !in ts.byKey
    ensures Enrolled(ts, |ts.list|, key, e, EnsureFallback(ts, e, key).0)
  {
    hide AttachedTool, ItemIdOf, CallIdOf, IsItemEvent, FallbackCallId;
  }

  lemma EnrolledKeysLead(table: Table, ts: Tools, owners: seq<Key>, t: nat, key: Key, e: StreamEvent, ts': Tools)
    requires Linked(ts) && Linked(ts') && Leads(table, ts, owners) && Enrolled(ts, t, key, e, ts')
    requires KeyWho(table, key) == Who(table, e) && (t < |ts.list| ==> owners[t] == Who(table, e))
    ensures var owners' := Joined(owners, t, Who(table, e));
            && |owners'| == |ts'.list| && key in ts'.byKey && owners'[ToolAt(ts', key)] == Who(table, e)
            && forall k :: k in ts'.byKey ==> owners'[ToolAt(ts', k)] == KeyWho(table, k)
  {
    hide Who, ItemIdOf, CallIdOf, IsItemEvent, KeyWho, WhoItem, WhoCall;
  }

  lemma EnrolledLeads(table: Table, ts: Tools, owners: seq<Key>, t: nat, key: Key, e: StreamEvent, ts': Tools)
    requires Linked(ts) && Linked(ts') && Leads(table, ts, owners) && Enrolled(ts, t, key, e, ts')
    requires Consistent(table, e) && key in Told(e) && (t < |ts.list| ==> owners[t] == Who(table, e))
    ensures Leads(table, ts', Joined(owners, t, Who(table, e)))
  {
    hide Who, Consistent, ItemIdOf, CallIdOf, IsItemEvent, Told, WhoItem, WhoCall, Joined, Linked;
    KeyIsTold(e);
    SameWho(table, e, key);
    EnrolledKeysLead(table, ts, owners, t, key, e, ts');
    if ItemIdOf(e) != "" { SameWho(table, e, ItemKey(ItemIdOf(e))); }
    if IsItemEvent(e) && CallIdOf(e) != "" { SameWho(table, e, CallKey(CallIdOf(e))); }
    var owners' := Joined(owners, t, Who(table, e));
    LinkedKeys(ts);
    LinkedKeys(ts');
    forall x | x in ts'.itemKeys ensures owners'[ToolAt(ts', ts'.itemKeys[x])] == WhoItem(table, x) {
      if x in ts.itemKeys { assert owners[ToolAt(ts, ts.itemKeys[x])] == KeyWho(table, ts.itemKeys[x]); }
    }
    forall c | c in ts'.callKeys ensures owners'[ToolAt(ts', ts'.callKeys[c])] == WhoCall(table, c) {
      if c in ts.callKeys { assert owners[ToolAt(ts, ts.callKeys[c])] == KeyWho(table, ts.callKeys[c]); }
    }
  }

  lemma LinkedKeys(ts: Tools)
    requires Linked(ts)
    ensures forall x :: x in ts.itemKeys ==> ts.itemKeys[x] in ts.byKey
    ensures forall c :: c in ts.callKeys ==> ts.callKeys[c] in ts.byKey
  {
  }

  lemma EnrolledKnows(ts: Tools, names: set<Key>, t: nat, key: Key, e: StreamEvent, ts': Tools)
    requires Knows(ts, names) && Enrolled(ts, t, key, e, ts') && key in Told(e)
    requires e.outputIndex.Some? ==> key == OutputKey(e.outputIndex.value)
    ensures Knows(ts', names + Told(e))
  {
    hide ItemIdOf, CallIdOf, IsItemEvent, Told, KnowsIndexes, KnowsIds;
    EnrolledIndexes(ts, names, t, key, e, ts');
    EnrolledIds(ts, names, t, key, e, ts');
  }

  lemma EnrolledIndexes(ts: Tools, names: set<Key>, t: nat, key: Key, e: StreamEvent, ts': Tools)
    requires KnowsIndexes(ts, names) && Enrolled(ts, t, key, e, ts')
    requires e.outputIndex.Some? ==> key == OutputKey(e.outputIndex.value)
    ensures KnowsIndexes(ts', names + Told(e))
  {
    hide ItemIdOf, CallIdOf, IsItemEvent;
  }

  lemma EnrolledIds(ts: Tools, names: set<Key>, t: nat, key: Key, e: StreamEvent, ts': Tools)
    requires KnowsIds(ts, names) && Enrolled(ts, t, key, e, ts')
    ensures KnowsIds(ts', names + Told(e))
  {
    hide ItemIdOf, CallIdOf, IsItemEvent;
  }

  lemma EnrolledAside(ts: Tools, waiting: map<Key, string>, t: nat, key: Key, e: StreamEvent, ts': Tools)
    requires SetAside(ts, waiting) && Enrolled(ts, t, key, e, ts')
    ensures SetAside(ts', waiting - Told(e))
  {
    hide ItemIdOf, CallIdOf, IsItemEvent;
  }

  lemma SameLeads(table: Table, ts: Tools, ts': Tools, owners: seq<Key>)
    requires Linked(ts) && Linked(ts') && Leads(table, ts, owners) && |ts'.list| == |ts.list|
    requires ts'.byKey == ts.byKey && ts'.itemKeys == ts.itemKeys && ts'.callKeys == ts.callKeys
    ensures Leads(table, ts', owners)
  {
    hide KeyWho, WhoItem, WhoCall, Linked;
    LinkedKeys(ts);
    assert forall k :: k in ts.byKey ==> ToolAt(ts', k) == ToolAt(ts, k);
  }

  lemma SameKnows(ts: Tools, ts': Tools, names: set<Key>, waiting: map<Key, string>)
    requires Knows(ts, names) && SetAside(ts, waiting) && ts' == ts.(list := ts'.list)
    ensures Knows(ts', names) && SetAside(ts', waiting)
  {
  }

  /** Names do not depend on the texts of the tools. */
  lemma SameNamed(table: Table, ts: Tools, ts': Tools, names: set<Key>, owners: seq<Key>, waiting: map<Key, string>)
    requires Linked(ts) && Linked(ts') && Named(table, ts, names, owners, waiting)
    requires ts' == ts.(list := ts'.list) && |ts'.list| == |ts.list|
    ensures Named(table, ts', names, owners, waiting)
  {
    hide Leads, Knows, SetAside, Linked;
    SameLeads(table, ts, ts', owners);
    SameKnows(ts, ts', names, waiting);
  }

  lemma EnrolledNamed(table: Table, ts: Tools, names: set<Key>, owners: seq<Key>, waiting: map<Key, string>, t: nat,
                      key: Key, e: StreamEvent, ts': Tools)
    requires Linked(ts) && Linked(ts') && Named(table, ts, names, owners, waiting) && Enrolled(ts, t, key, e, ts')
    requires Consistent(table, e) && key in Told(e) && (t < |ts.list| ==> t < |owners| && owners[t] == Who(table, e))
    requires e.outputIndex.Some? ==> key == OutputKey(e.outputIndex.value)
    ensures Named(table, ts', names + Told(e), Joined(owners, t, Who(table, e)), waiting - Told(e))
  {
    hide Leads, Knows, SetAside, Enrolled, Who, Consistent, Told;
    LeadsLength(table, ts, owners);
    EnrolledLeads(table, ts, owners, t, key, e, ts');
    EnrolledKnows(ts, names, t, key, e, ts');
    EnrolledAside(ts, waiting, t, key, e, ts');
  }

  lemma LeadsLength(table: Table, ts: Tools, owners: seq<Key>)
    requires Linked(ts) && Leads(table, ts, owners)
    ensures |owners| == |ts.list|
  {
  }

  // ---- the tools hold the accounts -------------------------------------------------------------------

  /** Each tool has gathered the text of its account and was sent what the account says. */
  ghost predicate Holds(ts: Tools, trace: seq<Chunk>, accounts: seq<Account>) {
    && |accounts| == |ts.list|
    && (forall t :: 0 <= t < |ts.list| ==>
            && ts.list[t].arguments == accounts[t].text && ts.list[t].argsSentAt == |accounts[t].sent|
            && Emitted(trace, t) == accounts[t].sent && |accounts[t].text| <= |accounts[t].sent|)
    && (forall t :: t >= |ts.list| ==> Emitted(trace, t) == "")
  }

  /** All tools but the one at t, which is about to be sent a text and has been sent a part. */
  ghost predicate HoldsBut(ts: Tools, trace: seq<Chunk>, accounts: seq<Account>, t: nat, text: string, sent: string) {
    && t < |ts.list| && t <= |accounts| <= |ts.list| && |ts.list| == (if t < |accounts| then |accounts| else t + 1)
    && (forall u :: 0 <= u < |accounts| && u != t ==>
            && ts.list[u].arguments == accounts[u].text && ts.list[u].argsSentAt == |accounts[u].sent|
            && Emitted(trace, u) == accounts[u].sent && |accounts[u].text| <= |accounts[u].sent|)
    && ts.list[t].arguments == text && ts.list[t].argsSentAt == |sent| && Emitted(trace, t) == sent
    && (forall u :: u >= |ts.list| ==> Emitted(trace, u) == "")
  }

  /** Sending what was not sent, or the fragment just gathered. */
  lemma SendHolds(ts: Tools, trace: seq<Chunk>, accounts: seq<Account>, t: nat, text: string, sent: string,
                  delta: string)
    requires Linked(ts) && HoldsBut(ts, trace, accounts, t, text, sent)
    requires delta != "" ==> |text| <= |sent| + |delta|
    ensures var (ts', chunks) := Send(ts, t, delta);
            Holds(ts', trace + chunks, Joined(accounts, t, Account(text, if delta == "" then CatchUp(sent, text)
                                                                         else sent + delta)))
  {
    hide Send, Emitted;
    var (ts', chunks) := Send(ts, t, delta);
    var d := if delta == "" then Unsent(ts.list[t]) else delta;
    forall u ensures Emitted(trace + chunks, u) == Emitted(trace, u) + (if u == t then d else "") {
      SendEmits(ts, t, delta, trace, u);
    }
    SendEmits(ts, t, delta, trace, t);
    assert forall u :: Emitted(trace, u) + "" == Emitted(trace, u);
    assert sent + "" == sent;
  }

  lemma SendKeeps(ts: Tools, t: nat, delta: string)
    requires Linked(ts) && t < |ts.list|
    ensures var ts' := Send(ts, t, delta).0; ts' == ts.(list := ts'.list) && |ts'.list| == |ts.list|
  {
    hide SentTool, SentChunk, Quiet;
  }

  /** Text that waits under the event's names is what the converter has kept aside for them. */
  lemma BroughtIs(ts: Tools, waiting: map<Key, string>, e: StreamEvent)
    requires SetAside(ts, waiting)
    ensures PendingAtOutput(ts, e.outputIndex) + PendingAtItem(ts, ItemIdOf(e)) == Brought(waiting, e)
  {
    hide ItemIdOf;
  }

  /** The account of the event's tool. */
  function AccountAt(accounts: seq<Account>, t: nat): Account { if t < |accounts| then accounts[t] else EMPTY }

  lemma AttachKeeps(ts: Tools, t: nat, key: Key, callId: string, e: StreamEvent)
    requires Linked(ts) && t <= |ts.list|
    ensures var ts' := Attach(Known(ts, t, key, callId), t, key, e);
            && |ts'.list| == (if t < |ts.list| then |ts.list| else |ts.list| + 1)
            && (forall u :: 0 <= u < |ts.list| && u != t ==> ts'.list[u] == ts.list[u])
            && ts'.list[t].argsSentAt == (if t < |ts.list| then ts.list[t].argsSentAt else 0)
            && ts'.list[t].arguments == (if t < |ts.list| then ts.list[t].arguments else "")
                                        + PendingAtOutput(ts, e.outputIndex) + PendingAtItem(ts, ItemIdOf(e))
  {
    hide ItemIdOf;
  }

  /** The tool that an event is joined to has gathered what waited for the event's names. */
  lemma AttachHolds(ts: Tools, trace: seq<Chunk>, accounts: seq<Account>, waiting: map<Key, string>, t: nat, key: Key,
                    callId: string, e: StreamEvent)
    requires Linked(ts) && Holds(ts, trace, accounts) && SetAside(ts, waiting) && t <= |ts.list|
    ensures var account := AccountAt(accounts, t);
            HoldsBut(Attach(Known(ts, t, key, callId), t, key, e), trace, accounts, t,
                     account.text + Brought(waiting, e), account.sent)
  {
    hide ItemIdOf, Emitted, Brought, PendingAtOutput, PendingAtItem, Attach, Known, SetAside;
    BroughtIs(ts, waiting, e);
    AttachKeeps(ts, t, key, callId, e);
    var index, id := PendingAtOutput(ts, e.outputIndex), PendingAtItem(ts, ItemIdOf(e));
    var text := if t < |accounts| then accounts[t].text else "";
    assert text + index + id == text + (index + id);
  }

  lemma DescribedHolds(ts: Tools, trace: seq<Chunk>, accounts: seq<Account>, t: nat, text: string, sent: string,
                       key: Key, e: StreamEvent)
    requires Linked(ts) && HoldsBut(ts, trace, accounts, t, text, sent) && key in ts.byKey && e.item.Some?
    ensures HoldsBut(Described(ts, t, key, e), trace, accounts, t, text, sent)
  {
    hide CallIdOf, Emitted, Text.Trim;
  }

  lemma ReplacedHolds(ts: Tools, trace: seq<Chunk>, accounts: seq<Account>, t: nat, text: string, sent: string,
                      arguments: string)
    requires Linked(ts) && HoldsBut(ts, trace, accounts, t, text, sent)
    ensures HoldsBut(WithArguments(ts, t, arguments), trace, accounts, t, arguments, sent)
  {
    hide Emitted;
  }

  lemma HoldsOne(ts: Tools, trace: seq<Chunk>, accounts: seq<Account>, t: nat)
    requires Holds(ts, trace, accounts) && t < |ts.list|
    ensures t < |accounts| && HoldsBut(ts, trace, accounts, t, accounts[t].text, accounts[t].sent)
    ensures |accounts[t].text| <= |accounts[t].sent|
  {
    hide Emitted;
  }

  // ---- steps --------------------------------------------------------------------------------------------

  /** The state of the converter's tools, as the names and accounts say. */
  ghost predicate Follows(table: Table, ts: Tools, trace: seq<Chunk>, names: set<Key>, owners: seq<Key>,
                          waiting: map<Key, string>, accounts: seq<Account>)
    requires Linked(ts)
  {
    Named(table, ts, names, owners, waiting) && Holds(ts, trace, accounts)
  }

  lemma ItemFollows(table: Table, ts: Tools, trace: seq<Chunk>, names: set<Key>, owners: seq<Key>,
                    waiting: map<Key, string>, accounts: seq<Account>, e: StreamEvent) returns (t: nat)
    requires Linked(ts) && Follows(table, ts, trace, names, owners, waiting, accounts)
    requires IsToolEvent(e) && IsItemEvent(e) && Consistent(table, e)
    ensures t <= |accounts| == |owners| && (t < |owners| <==> Recognised(names, e))
    ensures t < |owners| ==> owners[t] == Who(table, e)
    ensures var (ts', chunks) := ToolItem(ts, e);
            Follows(table, ts', trace + chunks, names + Told(e), Joined(owners, t, Who(table, e)), waiting - Told(e),
                    Joined(accounts, t, AccountAfter(names, waiting, AccountAt(accounts, t), e)))
  {
    hide Named, Holds, HoldsBut, Consistent, Who, IsItemEvent, Told, Recognised, KeyFor, Locate, Send, Attach, Known,
         Described, Brought, CatchUp, Leads, Knows, SetAside, Enrolled;
    NamedParts(table, ts, names, owners, waiting);
    NamedSo(table, e);
    var key := KeyFor(e).value;
    LocateIs(table, ts, names, owners, e);
    t := Locate(ts, e, key);
    LeadsLength(table, ts, owners);
    HoldsLength(ts, trace, accounts);
    var account := AccountAt(accounts, t);
    var ts1 := Attach(Known(ts, t, key, ""), t, key, e);
    AttachHolds(ts, trace, accounts, waiting, t, key, "", e);
    HeldLength(ts1, trace, accounts, t, account.text + Brought(waiting, e), account.sent);
    var ts2 := Described(ts1, t, key, e);
    DescribedHolds(ts1, trace, accounts, t, account.text + Brought(waiting, e), account.sent, key, e);
    var arguments := e.item.value.arguments;
    var ts3 := if arguments != "" then WithArguments(ts2, t, arguments) else ts2;
    var text := if arguments != "" then arguments else account.text + Brought(waiting, e);
    if arguments != "" {
      ReplacedHolds(ts2, trace, accounts, t, account.text + Brought(waiting, e), account.sent, arguments);
    }
    SendHolds(ts3, trace, accounts, t, text, account.sent, "");
    SendKeeps(ts3, t, "");
    ItemEnrols(ts, e, key);
    EnrolledNamed(table, ts, names, owners, waiting, t, key, e, ts2);
    SameNamed(table, ts2, Send(ts3, t, "").0, names + Told(e), Joined(owners, t, Who(table, e)), waiting - Told(e));
  }

  lemma NamedParts(table: Table, ts: Tools, names: set<Key>, owners: seq<Key>, waiting: map<Key, string>)
    requires Linked(ts) && Named(table, ts, names, owners, waiting)
    ensures Leads(table, ts, owners) && Knows(ts, names) && SetAside(ts, waiting)
  {
    hide Leads, Knows, SetAside;
  }

  lemma HoldsLength(ts: Tools, trace: seq<Chunk>, accounts: seq<Account>)
    requires Holds(ts, trace, accounts)
    ensures |accounts| == |ts.list|
  {
  }

  lemma HeldLength(ts: Tools, trace: seq<Chunk>, accounts: seq<Account>, t: nat, text: string, sent: string)
    requires HoldsBut(ts, trace, accounts, t, text, sent)
    ensures t < |ts.list|
  {
  }

  lemma UnknownKey(ts: Tools, names: set<Key>, e: StreamEvent, key: Key)
    requires Knows(ts, names) && !Recognised(names, e) && key in Asked(e)
    ensures key !in ts.byKey
  {
  }

  /** How an event changes the accounts of the tools: that of its item's tool, if there is one then. */
  predicate Advances(table: Table, names: set<Key>, owners: seq<Key>, waiting: map<Key, string>,
                     accounts: seq<Account>, e: StreamEvent, accounts': seq<Account>)
  {
    if Enrols(names, e) || Recognised(names, e) then
      exists t: nat :: t <= |accounts| == |owners| && (t < |owners| <==> Recognised(names, e))
                       && (t < |owners| ==> owners[t] == Who(table, e))
                       && accounts' == Joined(accounts, t, AccountAfter(names, waiting, AccountAt(accounts, t), e))
    else accounts' == accounts
  }

  ghost predicate FollowsOn(table: Table, step: (Tools, seq<Chunk>), trace: seq<Chunk>, names: set<Key>,
                            owners: seq<Key>, waiting: map<Key, string>, accounts: seq<Account>, e: StreamEvent,
                            accounts': seq<Account>)
    requires Linked(step.0)
  {
    && Follows(table, step.0, trace + step.1, NamesAfter(names, e), OwnersAfter(table, names, owners, e),
               WaitingAfter(names, waiting, e), accounts')
    && Advances(table, names, owners, waiting, accounts, e, accounts')
  }

  lemma ItemFollowsOn(table: Table, ts: Tools, trace: seq<Chunk>, names: set<Key>, owners: seq<Key>,
                      waiting: map<Key, string>, accounts: seq<Account>, e: StreamEvent)
    returns (accounts': seq<Account>)
    requires Linked(ts) && Follows(table, ts, trace, names, owners, waiting, accounts)
    requires IsToolEvent(e) && IsItemEvent(e) && Consistent(table, e)
    ensures e.item.Some? && FollowsOn(table, ToolItem(ts, e), trace, names, owners, waiting, accounts, e, accounts')
  {
    hide Follows, Consistent, Who, Told, Recognised, AccountAfter, ToolItem;
    var t := ItemFollows(table, ts, trace, names, owners, waiting, accounts, e);
    accounts' := Joined(accounts, t, AccountAfter(names, waiting, AccountAt(accounts, t), e));
    assert Joined(owners, t, Who(table, e)) == OwnersAfter(table, names, owners, e);
  }

  /** arguments.done of an item that is not known makes a tool for it. */
  lemma NewDoneFollows(table: Table, ts: Tools, trace: seq<Chunk>, names: set<Key>, owners: seq<Key>,
                       waiting: map<Key, string>, accounts: seq<Account>, e: StreamEvent)
    requires Linked(ts) && Follows(table, ts, trace, names, owners, waiting, accounts)
    requires e.eventType.ArgumentsDone? && Consistent(table, e) && !Recognised(names, e)
    ensures var (ts', chunks) := DoneStep(ts, e);
            Follows(table, ts', trace + chunks, names + Told(e), owners + [Who(table, e)], waiting - Told(e),
                    accounts + [AccountAfter(names, waiting, EMPTY, e)])
    ensures |accounts| == |owners|
  {
    hide Named, Holds, HoldsBut, Consistent, Who, IsItemEvent, Told, Recognised, KeyFor, Find, Send, Attach, Known,
         Brought, CatchUp, Leads, Knows, SetAside, Enrolled, FallbackKey, Asked;
    NamedParts(table, ts, names, owners, waiting);
    NamedSo(table, e);
    var key := FallbackKey(e).value;
    FindIs(table, ts, names, owners, e);
    LeadsLength(table, ts, owners);
    HoldsLength(ts, trace, accounts);
    UnknownKey(ts, names, e, key);
    var t := |ts.list|;
    var (ts1, t1) := EnsureFallback(ts, e, key);
    var text := EMPTY.text + Brought(waiting, e);
    AttachHolds(ts, trace, accounts, waiting, t, key, FallbackCallId(e), e);
    SendHolds(ts1, trace, accounts, t, text, EMPTY.sent, "");
    SendKeeps(ts1, t, "");
    FallbackEnrols(ts, e, key);
    EnrolledNamed(table, ts, names, owners, waiting, t, key, e, ts1);
    SameNamed(table, ts1, Send(ts1, t, "").0, names + Told(e), Joined(owners, t, Who(table, e)), waiting - Told(e));
  }

  lemma KnownDoneFollows(table: Table, ts: Tools, trace: seq<Chunk>, names: set<Key>, owners: seq<Key>,
                         waiting: map<Key, string>, accounts: seq<Account>, e: StreamEvent) returns (t: nat)
    requires Linked(ts) && Follows(table, ts, trace, names, owners, waiting, accounts)
    requires e.eventType.ArgumentsDone? && Consistent(table, e) && Recognised(names, e)
    ensures t < |accounts| == |owners| && owners[t] == Who(table, e)
    ensures var (ts', chunks) := DoneStep(ts, e);
            Follows(table, ts', trace + chunks, names, owners, waiting,
                    accounts[t := AccountAfter(names, waiting, accounts[t], e)])
  {
    hide Named, Holds, HoldsBut, Consistent, Who, IsItemEvent, Told, Recognised, KeyFor, Find, Send, CatchUp, Leads,
         Knows, SetAside, FallbackKey, Asked;
    NamedParts(table, ts, names, owners, waiting);
    NamedSo(table, e);
    FindIs(table, ts, names, owners, e);
    LeadsLength(table, ts, owners);
    HoldsLength(ts, trace, accounts);
    t := Find(ts, e).value;
    HoldsOne(ts, trace, accounts, t);
    SendHolds(ts, trace, accounts, t, accounts[t].text, accounts[t].sent, "");
    SendKeeps(ts, t, "");
    SameNamed(table, ts, Send(ts, t, "").0, names, owners, waiting);
  }

  lemma DoneFollowsOn(table: Table, ts: Tools, trace: seq<Chunk>, names: set<Key>, owners: seq<Key>,
                      waiting: map<Key, string>, accounts: seq<Account>, e: StreamEvent)
    returns (accounts': seq<Account>)
    requires Linked(ts) && Follows(table, ts, trace, names, owners, waiting, accounts)
    requires IsToolEvent(e) && e.eventType.ArgumentsDone? && Consistent(table, e)
    ensures FollowsOn(table, DoneStep(ts, e), trace, names, owners, waiting, accounts, e, accounts')
  {
    hide Follows, Consistent, Who, Told, Recognised, AccountAfter, DoneStep, IsItemEvent;
    NamedSo(table, e);
    if Recognised(names, e) {
      var t := KnownDoneFollows(table, ts, trace, names, owners, waiting, accounts, e);
      accounts' := accounts[t := AccountAfter(names, waiting, accounts[t], e)];
      assert accounts' == Joined(accounts, t, AccountAfter(names, waiting, AccountAt(accounts, t), e));
    } else {
      NewDoneFollows(table, ts, trace, names, owners, waiting, accounts, e);
      accounts' := accounts + [AccountAfter(names, waiting, EMPTY, e)];
      var n := |accounts|;
      assert accounts' == Joined(accounts, n, AccountAfter(names, waiting, AccountAt(accounts, n), e));
    }
  }

  lemma GrownHolds(ts: Tools, trace: seq<Chunk>, accounts: seq<Account>, t: nat, delta: string)
    requires Linked(ts) && Holds(ts, trace, accounts) && t < |ts.list|
    ensures t < |accounts|
    ensures HoldsBut(WithArguments(ts, t, ts.list[t].arguments + delta), trace, accounts, t, accounts[t].text + delta,
                     accounts[t].sent)
    ensures |accounts[t].text| <= |accounts[t].sent|
  {
    hide Emitted;
  }

  lemma KnownDeltaFollows(table: Table, ts: Tools, trace: seq<Chunk>, names: set<Key>, owners: seq<Key>,
                          waiting: map<Key, string>, accounts: seq<Account>, e: StreamEvent) returns (t: nat)
    requires Linked(ts) && Follows(table, ts, trace, names, owners, waiting, accounts)
    requires e.eventType.ArgumentsDelta? && e.delta != "" && Consistent(table, e) && Recognised(names, e)
    ensures t < |accounts| == |owners| && owners[t] == Who(table, e)
    ensures var (ts', chunks) := ArgumentsStep(ts, e);
            Follows(table, ts', trace + chunks, names, owners, waiting,
                    accounts[t := AccountAfter(names, waiting, accounts[t], e)])
  {
    hide Named, Holds, HoldsBut, Consistent, Who, IsItemEvent, Told, Recognised, KeyFor, Find, Send, CatchUp, Leads,
         Knows, SetAside, FallbackKey, Asked;
    NamedParts(table, ts, names, owners, waiting);
    NamedSo(table, e);
    FindIs(table, ts, names, owners, e);
    LeadsLength(table, ts, owners);
    HoldsLength(ts, trace, accounts);
    t := Find(ts, e).value;
    GrownHolds(ts, trace, accounts, t, e.delta);
    var ts1 := WithArguments(ts, t, ts.list[t].arguments + e.delta);
    SendHolds(ts1, trace, accounts, t, accounts[t].text + e.delta, accounts[t].sent, e.delta);
    SendKeeps(ts1, t, e.delta);
    SameNamed(table, ts, Send(ts1, t, e.delta).0, names, owners, waiting);
  }

  lemma KeptAside(ts: Tools, waiting: map<Key, string>, e: StreamEvent)
    requires Linked(ts) && SetAside(ts, waiting) && FallbackKey(e).Some?
    ensures var key := FallbackKey(e).value;
            SetAside(KeepAside(ts, e), waiting[key := TextAt(waiting, key) + e.delta])
    ensures var ts' := KeepAside(ts, e);
            ts' == ts.(pendingOutput := ts'.pendingOutput, pendingItem := ts'.pendingItem)
  {
    hide Text.Trim;
    var index: int := e.outputIndex.GetOr(0);
    assert e.outputIndex.Some? ==> FallbackKey(e) == Some(OutputKey(index));
  }

  lemma AsideNamed(table: Table, ts: Tools, ts': Tools, names: set<Key>, owners: seq<Key>)
    requires Linked(ts) && Linked(ts') && Leads(table, ts, owners) && Knows(ts, names)
    requires ts' == ts.(pendingOutput := ts'.pendingOutput, pendingItem := ts'.pendingItem)
    ensures Leads(table, ts', owners) && Knows(ts', names)
  {
    hide KeyWho, WhoItem, WhoCall;
  }

  lemma UnknownDeltaFollows(table: Table, ts: Tools, trace: seq<Chunk>, names: set<Key>, owners: seq<Key>,
                            waiting: map<Key, string>, accounts: seq<Account>, e: StreamEvent)
    requires Linked(ts) && Follows(table, ts, trace, names, owners, waiting, accounts)
    requires e.eventType.ArgumentsDelta? && e.delta != "" && Consistent(table, e) && !Recognised(names, e)
    ensures var (ts', chunks) := ArgumentsStep(ts, e);
            Follows(table, ts', trace + chunks, names, owners, WaitingAfter(names, waiting, e), accounts)
  {
    hide Named, Holds, Consistent, Who, IsItemEvent, Told, Recognised, KeyFor, Find, Leads, Knows, SetAside,
         FallbackKey, Asked, KeepAside;
    NamedParts(table, ts, names, owners, waiting);
    NamedSo(table, e);
    FindIs(table, ts, names, owners, e);
    KeptAside(ts, waiting, e);
    var ts' := KeepAside(ts, e);
    AsideNamed(table, ts, ts', names, owners);
    NamedWhole(table, ts', names, owners, WaitingAfter(names, waiting, e));
    SameHolds(ts, ts', trace, accounts);
    assert trace + [] == trace;
  }

  lemma NamedWhole(table: Table, ts: Tools, names: set<Key>, owners: seq<Key>, waiting: map<Key, string>)
    requires Linked(ts) && Leads(table, ts, owners) && Knows(ts, names) && SetAside(ts, waiting)
    ensures Named(table, ts, names, owners, waiting)
  {
    hide Leads, Knows, SetAside;
  }

  lemma SameHolds(ts: Tools, ts': Tools, trace: seq<Chunk>, accounts: seq<Account>)
    requires Holds(ts, trace, accounts) && ts'.list == ts.list
    ensures Holds(ts', trace, accounts)
  {
    hide Emitted;
  }

  /** An empty delta changes no account. */
  lemma EmptyAdvances(table: Table, ts: Tools, trace: seq<Chunk>, names: set<Key>, owners: seq<Key>,
                      waiting: map<Key, string>, accounts: seq<Account>, e: StreamEvent)
    requires Linked(ts) && Follows(table, ts, trace, names, owners, waiting, accounts)
    requires e.eventType.ArgumentsDelta? && e.delta == "" && Consistent(table, e)
    ensures Advances(table, names, owners, waiting, accounts, e, accounts)
  {
    hide Named, Holds, Consistent, Who, IsItemEvent, Told, Recognised, KeyFor, Find, Leads, Knows, SetAside,
         FallbackKey, Asked;
    NamedParts(table, ts, names, owners, waiting);
    NamedSo(table, e);
    FindIs(table, ts, names, owners, e);
    LeadsLength(table, ts, owners);
    HoldsLength(ts, trace, accounts);
    if Recognised(names, e) {
      var t := Find(ts, e).value;
      var account := accounts[t];
      assert Account(account.text + "", account.sent + "") == account;
      assert accounts == Joined(accounts, t, AccountAfter(names, waiting, AccountAt(accounts, t), e));
    }
  }

  lemma DeltaFollowsOn(table: Table, ts: Tools, trace: seq<Chunk>, names: set<Key>, owners: seq<Key>,
                       waiting: map<Key, string>, accounts: seq<Account>, e: StreamEvent)
    returns (accounts': seq<Account>)
    requires Linked(ts) && Follows(table, ts, trace, names, owners, waiting, accounts)
    requires IsToolEvent(e) && e.eventType.ArgumentsDelta? && Consistent(table, e)
    ensures FollowsOn(table, ArgumentsStep(ts, e), trace, names, owners, waiting, accounts, e, accounts')
  {
    hide Follows, Consistent, Who, Told, Recognised, AccountAfter, IsItemEvent, Find, KeepAside, Send, WithArguments;
    NamedSo(table, e);
    if e.delta == "" {
      accounts' := accounts;
      EmptyAdvances(table, ts, trace, names, owners, waiting, accounts, e);
      assert trace + [] == trace;
    } else if Recognised(names, e) {
      var t := KnownDeltaFollows(table, ts, trace, names, owners, waiting, accounts, e);
      accounts' := accounts[t := AccountAfter(names, waiting, accounts[t], e)];
      assert accounts' == Joined(accounts, t, AccountAfter(names, waiting, AccountAt(accounts, t), e));
    } else {
      UnknownDeltaFollows(table, ts, trace, names, owners, waiting, accounts, e);
      accounts' := accounts;
    }
  }

  lemma ToolStepFollowsOn(table: Table, ts: Tools, trace: seq<Chunk>, names: set<Key>, owners: seq<Key>,
                          waiting: map<Key, string>, accounts: seq<Account>, e: StreamEvent)
    returns (accounts': seq<Account>)
    requires Linked(ts) && Follows(table, ts, trace, names, owners, waiting, accounts)
    requires IsToolEvent(e) && Consistent(table, e)
    ensures FollowsOn(table, ToolStep(ts, e), trace, names, owners, waiting, accounts, e, accounts')
  {
    hide Follows, FollowsOn, Consistent, ToolItem, DoneStep, ArgumentsStep, IsItemEvent;
    NamedSo(table, e);
    if e.eventType.ArgumentsDelta? {
      accounts' := DeltaFollowsOn(table, ts, trace, names, owners, waiting, accounts, e);
    } else if e.eventType.ArgumentsDone? {
      accounts' := DoneFollowsOn(table, ts, trace, names, owners, waiting, accounts, e);
    } else {
      accounts' := ItemFollowsOn(table, ts, trace, names, owners, waiting, accounts, e);
    }
  }

  // ---- whole streams -------------------------------------------------------------------------------------

  /** The accounts of a list of items. */
  function Accounts(table: Table, events: seq<StreamEvent>, owners: seq<Key>): seq<Account> {
    seq(|owners|, t requires 0 <= t < |owners| => AccountOf(table, events, owners[t]))
  }

  lemma {:induction false} UnopenedIsEmpty(table: Table, events: seq<StreamEvent>, who: Key)
    requires AllConsistent(table, events) && who !in Owners(table, events)
    ensures AccountOf(table, events, who) == EMPTY
  {
    hide Who, Consistent, IsToolEvent, AllConsistent, Recognised, Told, NamesAfter, WaitingAfter, IsItemEvent, CatchUp,
         Brought;
    if events != [] {
      var before, e := events[..|events| - 1], events[|events| - 1];
      ConsistentSnoc(table, events);
      OwnersAreOpened(table, before);
      NamesSnoc(table, before, e);
      OwnedAfter(table, Names(before), Owners(table, before), e);
      UnopenedIsEmpty(table, before, who);
      NamedSo(table, e);
      if Recognised(Names(before), e) { RecognisedOwned(table, Names(before), Owners(table, before), e); }
    }
  }

  /** With one tool for each item, a step changes the account of its item and no other. */
  lemma AdvancesAccounts(table: Table, events: seq<StreamEvent>, e: StreamEvent, accounts': seq<Account>)
    requires AllConsistent(table, events) && IsToolEvent(e) && Consistent(table, e)
    requires Distinct(Owners(table, events + [e]))
    requires Advances(table, Names(events), Owners(table, events), Waiting(events),
                      Accounts(table, events, Owners(table, events)), e, accounts')
    ensures accounts' == Accounts(table, events + [e], Owners(table, events + [e]))
  {
    hide Who, Consistent, AllConsistent, IsToolEvent, Names, Owners, Waiting, Recognised, Distinct, AccountAfter,
         AccountOf, IsItemEvent;
    var names, owners, waiting := Names(events), Owners(table, events), Waiting(events);
    var owners' := Owners(table, events + [e]);
    var who := Who(table, e);
    NamesSnoc(table, events, e);
    NamedSo(table, e);
    forall w ensures AccountOf(table, events + [e], w) ==
                     if who == w then AccountAfter(names, waiting, AccountOf(table, events, w), e)
                     else AccountOf(table, events, w)
    {
      AccountSnoc(table, events, e, w);
    }
    if Enrols(names, e) || Recognised(names, e) {
      AccountsJoin(table, events, e, accounts');
    } else {
      UnrecognisedKeeps(names, waiting, AccountOf(table, events, who), e);
    }
  }

  lemma UnrecognisedKeeps(names: set<Key>, waiting: map<Key, string>, account: Account, e: StreamEvent)
    requires !Enrols(names, e) && !Recognised(names, e)
    ensures AccountAfter(names, waiting, account, e) == account
  {
    hide Recognised, IsItemEvent;
  }

  lemma AccountsJoin(table: Table, events: seq<StreamEvent>, e: StreamEvent, accounts': seq<Account>)
    requires AllConsistent(table, events) && IsToolEvent(e) && Consistent(table, e)
    requires Distinct(Owners(table, events + [e])) && (Enrols(Names(events), e) || Recognised(Names(events), e))
    requires Advances(table, Names(events), Owners(table, events), Waiting(events),
                      Accounts(table, events, Owners(table, events)), e, accounts')
    requires Owners(table, events + [e]) == OwnersAfter(table, Names(events), Owners(table, events), e)
    requires forall w :: AccountOf(table, events + [e], w) ==
                         if Who(table, e) == w then
                           AccountAfter(Names(events), Waiting(events), AccountOf(table, events, w), e)
                         else AccountOf(table, events, w)
    ensures accounts' == Accounts(table, events + [e], Owners(table, events + [e]))
  {
    hide Who, Consistent, AllConsistent, IsToolEvent, Names, Owners, Waiting, Recognised, AccountAfter,
         AccountOf, IsItemEvent, Distinct;
    var names, owners, waiting := Names(events), Owners(table, events), Waiting(events);
    var owners' := Owners(table, events + [e]);
    var who := Who(table, e);
    var accounts := Accounts(table, events, owners);
    var t: nat :| t <= |accounts| == |owners| && (t < |owners| <==> Recognised(names, e))
                  && (t < |owners| ==> owners[t] == who)
                  && accounts' == Joined(accounts, t, AccountAfter(names, waiting, AccountAt(accounts, t), e));
    if t == |owners| {
      DistinctSnoc(owners, who);
      UnopenedIsEmpty(table, events, who);
    } else {
      assert owners' == owners;
      DistinctAt(owners, t);
    }
  }

  lemma DistinctAt(owners: seq<Key>, t: nat)
    requires Distinct(owners) && t < |owners|
    ensures forall u :: 0 <= u < |owners| && u != t ==> owners[u] != owners[t]
  {
  }

  function Plain(events: seq<StreamEvent>): seq<Action> {
    if events == [] then [] else Plain(events[..|events| - 1]) + [OnTool(events[|events| - 1])]
  }

  lemma PlaySnoc(actions: seq<Action>, action: Action)
    requires Playable(actions) && (action.OnTool? ==> IsToolEvent(action.event))
    ensures Playable(actions + [action])
    ensures var (ts, trace) := Play(actions); var (ts', chunks) := Act(ts, action);
            Play(actions + [action]) == (ts', trace + chunks)
  {
    hide Act, IsToolEvent;
    assert (actions + [action])[..|actions|] == actions;
  }

  lemma OwnersGrow(table: Table, events: seq<StreamEvent>)
    requires events != [] && Distinct(Owners(table, events))
    ensures Distinct(Owners(table, events[..|events| - 1]))
  {
    hide Who, Recognised, IsItemEvent, NamesAfter;
    var before := events[..|events| - 1];
    if Owners(table, events) != Owners(table, before) {
      DistinctSnoc(Owners(table, before), Who(table, events[|events| - 1]));
    }
  }

  /** Along every consistent stream the converter's tools follow the names and, if no item gets two
      tools, the accounts of the items. */
  lemma {:induction false} PlainFollows(table: Table, events: seq<StreamEvent>) returns (accounts: seq<Account>)
    requires AllConsistent(table, events)
    ensures Playable(Plain(events))
    ensures var (ts, trace) := Play(Plain(events));
            Follows(table, ts, trace, Names(events), Owners(table, events), Waiting(events), accounts)
    ensures Distinct(Owners(table, events)) ==> accounts == Accounts(table, events, Owners(table, events))
  {
    hide Follows, Consistent, AllConsistent, ToolStep, Play, Playable, IsToolEvent, NamesAfter, OwnersAfter,
         WaitingAfter, Advances, Distinct, Accounts;
    if events == [] {
      accounts := [];
      NothingFollows(table);
    } else {
      var before, e := events[..|events| - 1], events[|events| - 1];
      ConsistentSnoc(table, events);
      var accounts0 := PlainFollows(table, before);
      PlaySnoc(Plain(before), OnTool(e));
      NamesSnoc(table, before, e);
      var (ts, trace) := Play(Plain(before));
      accounts := ToolStepFollowsOn(table, ts, trace, Names(before), Owners(table, before), Waiting(before), accounts0,
                                    e);
      if Distinct(Owners(table, events)) {
        OwnersGrow(table, events);
        AdvancesAccounts(table, before, e, accounts);
      }
    }
  }

  lemma NothingFollows(table: Table)
    ensures Playable(Plain([])) && Play(Plain([])) == (NO_TOOLS, [])
    ensures Follows(table, NO_TOOLS, [], Names([]), Owners(table, []), Waiting([]), [])
    ensures Accounts(table, [], Owners(table, [])) == []
  {
  }

  // ---- the finalizer ---------------------------------------------------------------------------------------

  lemma {:induction false} SortedIsDistinct(keys: set<Key>)
    ensures Distinct(Sorted(keys))
    decreases |keys|
  {
    hide Distinct, Least;
    if keys == {} {
      NoneDistinct();
    } else {
      LeastExists(keys);
      var k :| Least(k, keys);
      LeastIn(k, keys);
      SortedStep(keys, k);
      SortedIsDistinct(keys - {k});
      assert k !in Sorted(keys - {k});
      DistinctCons(k, Sorted(keys - {k}));
    }
  }

  lemma DistinctCons(k: Key, rest: seq<Key>)
    requires Distinct(rest) && k !in rest
    ensures Distinct([k] + rest)
  {
  }

  /** The names under which arguments wait, in the order in which the finalizer comes to them. */
  function Rest(waiting: map<Key, string>, keys: seq<Key>): seq<Key> {
    if keys == [] then [] else
      Rest(waiting, keys[..|keys| - 1]) + if keys[|keys| - 1] in waiting then [keys[|keys| - 1]] else []
  }

  lemma {:induction false} RestLists(waiting: map<Key, string>, keys: seq<Key>)
    requires Distinct(keys)
    ensures Distinct(Rest(waiting, keys))
    ensures forall k :: k in Rest(waiting, keys) <==> k in keys && k in waiting
  {
    hide Distinct;
    if keys == [] {
      NoneDistinct();
    } else {
      var n := |keys| - 1;
      assert keys == keys[..n] + [keys[n]];
      DistinctSnoc(keys[..n], keys[n]);
      RestLists(waiting, keys[..n]);
      DistinctSnoc(Rest(waiting, keys[..n]), keys[n]);
      assert Rest(waiting, keys[..n]) + [] == Rest(waiting, keys[..n]);
    }
  }

  /** A tool that the finalizer makes of waiting arguments is sent all of them. */
  function RestAccounts(waiting: map<Key, string>, rest: seq<Key>): seq<Account> {
    seq(|rest|, i requires 0 <= i < |rest| => Account(TextAt(waiting, rest[i]), TextAt(waiting, rest[i])))
  }

  ghost predicate OutputsLeft(ts0: Tools, done: seq<Key>, ts: Tools) {
    && (forall i :: i in ts.pendingOutput <==> i in ts0.pendingOutput && OutputKey(i) !in done)
    && (forall i :: i in ts.pendingOutput ==> ts.pendingOutput[i] == ts0.pendingOutput[i])
  }

  ghost predicate ItemsLeft(ts0: Tools, done: seq<Key>, ts: Tools) {
    && (forall x :: x in ts.pendingItem <==> x in ts0.pendingItem && ItemKey(x) !in done)
    && (forall x :: x in ts.pendingItem ==> ts.pendingItem[x] == ts0.pendingItem[x])
  }

  /** Where the finalizer stands after some keys. */
  ghost predicate Flushing(ts0: Tools, done: seq<Key>, ts: Tools) {
    && (forall k :: k in ts.byKey <==> k in ts0.byKey || k in done)
    && OutputsLeft(ts0, done, ts) && ItemsLeft(ts0, done, ts)
  }

  lemma OutputsLeftOn(ts0: Tools, done: seq<Key>, ts: Tools, key: Key, ts': Tools)
    requires OutputsLeft(ts0, done, ts)
    requires ts'.pendingOutput == if key.OutputKey? then ts.pendingOutput - {key.index} else ts.pendingOutput
    ensures OutputsLeft(ts0, done + [key], ts')
  {
    assert forall k :: k in done + [key] <==> k in done || k == key;
    assert forall i :: i in ts'.pendingOutput <==> i in ts.pendingOutput && OutputKey(i) != key;
  }

  lemma ItemsLeftOn(ts0: Tools, done: seq<Key>, ts: Tools, key: Key, ts': Tools)
    requires ItemsLeft(ts0, done, ts)
    requires ts'.pendingItem == if key.ItemKey? then ts.pendingItem - {key.id} else ts.pendingItem
    ensures ItemsLeft(ts0, done + [key], ts')
  {
    assert forall k :: k in done + [key] <==> k in done || k == key;
    assert forall x :: x in ts'.pendingItem <==> x in ts.pendingItem && ItemKey(x) != key;
  }

  lemma FlushingOn(ts0: Tools, done: seq<Key>, ts: Tools, key: Key)
    requires Linked(ts) && Flushing(ts0, done, ts)
    ensures Flushing(ts0, done + [key], FlushKey(ts, key).0)
  {
    hide FlushKey, OutputsLeft, ItemsLeft;
    FlushKeyTakes(ts, key);
    var ts' := FlushKey(ts, key).0;
    OutputsLeftOn(ts0, done, ts, key, ts');
    ItemsLeftOn(ts0, done, ts, key, ts');
    assert forall k :: k in done + [key] <==> k in done || k == key;
    assert forall k :: k in ts'.byKey.Keys <==> k in ts.byKey.Keys || k == key;
  }

  lemma FlushKeyTakes(ts: Tools, key: Key)
    requires Linked(ts)
    ensures var ts' := FlushKey(ts, key).0;
            && ts'.byKey.Keys == ts.byKey.Keys + {key}
            && ts'.pendingOutput == (if key.OutputKey? then ts.pendingOutput - {key.index} else ts.pendingOutput)
            && ts'.pendingItem == (if key.ItemKey? then ts.pendingItem - {key.id} else ts.pendingItem)
  {
    hide Send, PendingFor, FlushCallId;
    var (ts1, t) := TakePending(ts, key);
    SendKeeps(ts1, t, "");
  }

  /** What is left under a key is what waited under its name. */
  lemma LeftIs(ts0: Tools, done: seq<Key>, ts: Tools, waiting: map<Key, string>, key: Key)
    requires Flushing(ts0, done, ts) && SetAside(ts0, waiting) && key !in done && !(key.CallKey? && key in waiting)
    ensures PendingFor(ts, key) == TextAt(waiting, key)
  {
  }

  /** What taking over the waiting text of a key does to the tools. */
  lemma TakeSays(ts: Tools, key: Key)
    requires Linked(ts)
    ensures var (ts1, t) := TakePending(ts, key);
            && t <= |ts.list| && |ts1.list| == (if t < |ts.list| then |ts.list| else |ts.list| + 1)
            && (forall u :: 0 <= u < |ts.list| && u != t ==> ts1.list[u] == ts.list[u])
            && ts1.list[t].argsSentAt == (if t < |ts.list| then ts.list[t].argsSentAt else 0)
            && ts1.list[t].arguments == (if t < |ts.list| then ts.list[t].arguments else "") + PendingFor(ts, key)
  {
    hide PendingFor, FlushCallId, Forget;
    var known := Known(ts, TakePending(ts, key).1, key, FlushCallId(key));
    SamePending(ts, known, key);
    ForgetKeeps(known, key, TakePending(ts, key).1);
  }

  lemma ForgetKeeps(ts: Tools, key: Key, t: nat)
    requires Linked(ts) && t < |ts.list|
    ensures forall arguments :: Forget(WithArguments(ts, t, arguments), key).list
                                == WithArguments(ts, t, arguments).list
  {
    hide Linked;
  }

  lemma TakeHolds(ts: Tools, trace: seq<Chunk>, accounts: seq<Account>, key: Key)
    requires Linked(ts) && Holds(ts, trace, accounts)
    ensures var (ts1, t) := TakePending(ts, key);
            && t <= |ts.list|
            && HoldsBut(ts1, trace, accounts, t, AccountAt(accounts, t).text + PendingFor(ts, key),
                        AccountAt(accounts, t).sent)
  {
    hide Emitted, PendingFor, TakePending, Linked;
    TakeSays(ts, key);
  }

  lemma SamePending(ts: Tools, ts': Tools, key: Key)
    requires ts'.pendingOutput == ts.pendingOutput && ts'.pendingItem == ts.pendingItem
    ensures PendingFor(ts', key) == PendingFor(ts, key)
  {
  }

  lemma FlushKeyHolds(ts0: Tools, done: seq<Key>, ts: Tools, trace: seq<Chunk>, names: set<Key>,
                      waiting: map<Key, string>, accounts: seq<Account>, key: Key)
    requires Linked(ts) && Flushing(ts0, done, ts) && SetAside(ts0, waiting) && Apart(names, waiting)
    requires Knows(ts0, names) && Holds(ts, trace, accounts) && key !in done
    requires key in ts0.byKey || key in waiting
    ensures var (ts', chunks) := FlushKey(ts, key);
            Holds(ts', trace + chunks,
                  if key in waiting then accounts + [Account(waiting[key], waiting[key])] else accounts)
  {
    hide Holds, HoldsBut, Send, TakePending, SetAside, PendingFor;
    var (ts1, t) := TakePending(ts, key);
    HoldsLength(ts, trace, accounts);
    LeftIs(ts0, done, ts, waiting, key);
    TakeHolds(ts, trace, accounts, key);
    TakenAt(ts, key);
    var account := AccountAt(accounts, t);
    SendHolds(ts1, trace, accounts, t, account.text + PendingFor(ts, key), account.sent, "");
    if key in waiting {
      assert t == |accounts| && "" + waiting[key] == waiting[key];
      assert CatchUp("", waiting[key]) == waiting[key];
    } else {
      HoldsOne(ts, trace, accounts, t);
      assert account.text + "" == account.text;
      assert Joined(accounts, t, account) == accounts;
    }
  }

  lemma TakenAt(ts: Tools, key: Key)
    requires Linked(ts)
    ensures TakePending(ts, key).1 == if key in ts.byKey then ts.byKey[key] else |ts.list|
    ensures key in ts.byKey ==> ts.byKey[key] < |ts.list|
  {
  }

  lemma {:induction false} FlushKeysHold(ts: Tools, trace: seq<Chunk>, names: set<Key>, waiting: map<Key, string>,
                                         accounts: seq<Account>, keys: seq<Key>)
    requires Linked(ts) && SetAside(ts, waiting) && Apart(names, waiting) && Knows(ts, names)
    requires Holds(ts, trace, accounts) && Distinct(keys)
    requires forall k :: k in keys ==> k in ts.byKey || k in waiting
    ensures var (ts', chunks) := FlushKeys(ts, keys);
            && Flushing(ts, keys, ts')
            && Holds(ts', trace + chunks, accounts + RestAccounts(waiting, Rest(waiting, keys)))
  {
    hide Holds, SetAside, FlushKey, Flushing, Knows, Apart, Distinct;
    if keys == [] {
      NothingFlushed(ts);
      assert trace + [] == trace && accounts + RestAccounts(waiting, []) == accounts;
    } else {
      var n := |keys| - 1;
      var key := keys[n];
      assert keys == keys[..n] + [key];
      DistinctSnoc(keys[..n], key);
      assert forall k :: k in keys[..n] ==> k in keys;
      FlushKeysHold(ts, trace, names, waiting, accounts, keys[..n]);
      var (ts1, chunks1) := FlushKeys(ts, keys[..n]);
      var accounts1 := accounts + RestAccounts(waiting, Rest(waiting, keys[..n]));
      FlushingOn(ts, keys[..n], ts1, key);
      FlushKeyHolds(ts, keys[..n], ts1, trace + chunks1, names, waiting, accounts1, key);
      assert trace + (chunks1 + FlushKey(ts1, key).1) == (trace + chunks1) + FlushKey(ts1, key).1;
      RestAccountsSnoc(waiting, accounts, keys);
    }
  }

  lemma NothingFlushed(ts: Tools)
    ensures Flushing(ts, [], ts)
  {
  }

  lemma RestAccountsSnoc(waiting: map<Key, string>, accounts: seq<Account>, keys: seq<Key>)
    requires keys != []
    ensures var n := |keys| - 1;
            accounts + RestAccounts(waiting, Rest(waiting, keys)) ==
            if keys[n] in waiting then
              (accounts + RestAccounts(waiting, Rest(waiting, keys[..n])))
              + [Account(waiting[keys[n]], waiting[keys[n]])]
            else accounts + RestAccounts(waiting, Rest(waiting, keys[..n]))
  {
  }

  lemma FlushAllHolds(table: Table, ts: Tools, trace: seq<Chunk>, names: set<Key>, owners: seq<Key>,
                      waiting: map<Key, string>, accounts: seq<Account>) returns (rest: seq<Key>)
    requires Linked(ts) && Follows(table, ts, trace, names, owners, waiting, accounts) && Apart(names, waiting)
    ensures Lists(rest, waiting)
    ensures var (ts', chunks) := FlushAll(ts);
            Holds(ts', trace + chunks, accounts + RestAccounts(waiting, rest))
    ensures |accounts| == |owners|
  {
    hide Holds, Leads, Knows, SetAside, Distinct, FlushKeys, RestAccounts, Rest, AllKeys, Sorted, Apart;
    var keys := Sorted(AllKeys(ts));
    SortedIsDistinct(AllKeys(ts));
    AllKeysAre(ts, names, waiting);
    LeadsLength(table, ts, owners);
    HoldsLength(ts, trace, accounts);
    FlushKeysHold(ts, trace, names, waiting, accounts, keys);
    rest := Rest(waiting, keys);
    RestLists(waiting, keys);
  }

  lemma AllKeysAre(ts: Tools, names: set<Key>, waiting: map<Key, string>)
    requires SetAside(ts, waiting) && Apart(names, waiting)
    ensures forall k :: k in AllKeys(ts) <==> k in ts.byKey || k in waiting
  {
    forall k | k in waiting ensures k in AllKeys(ts) {
      match k
      case OutputKey(i) => assert i in ts.pendingOutput;
      case ItemKey(x) => assert x in ts.pendingItem;
      case CallKey(_) =>
    }
  }

  // ---- items that are never announced --------------------------------------------------------------------

  /** The arguments received for an item: deltas add up, a non-empty snapshot replaces. */
  function Received(table: Table, events: seq<StreamEvent>, who: Key): string {
    if events == [] then "" else
      var before, e := Received(table, events[..|events| - 1], who), events[|events| - 1];
      if Who(table, e) != who || e.eventType.ArgumentsDone? then before
      else if e.eventType.ArgumentsDelta? then before + e.delta
      else if HasSnapshot(e) then e.item.value.arguments
      else before
  }

  lemma ReceivedSnoc(table: Table, events: seq<StreamEvent>, e: StreamEvent, who: Key)
    ensures Received(table, events + [e], who) ==
            var before := Received(table, events, who);
            if Who(table, e) != who || e.eventType.ArgumentsDone? then before
            else if e.eventType.ArgumentsDelta? then before + e.delta
            else if HasSnapshot(e) then e.item.value.arguments
            else before
  {
    assert (events + [e])[..|events|] == events;
  }

  /** All that waits for an item waits under this name. */
  predicate WaitsUnder(table: Table, waiting: map<Key, string>, who: Key, name: Key) {
    KeyWho(table, name) == who && forall n :: n in waiting && KeyWho(table, n) == who ==> n == name
  }

  lemma OthersWait(table: Table, names: set<Key>, waiting: map<Key, string>, e: StreamEvent, who: Key, name: Key)
    requires IsToolEvent(e) && Consistent(table, e) && Who(table, e) != who
    requires WaitsUnder(table, WaitingAfter(names, waiting, e), who, name)
    ensures WaitsUnder(table, waiting, who, name)
    ensures TextAt(WaitingAfter(names, waiting, e), name) == TextAt(waiting, name)
  {
    hide Who, KeyWho, IsToolEvent, IsItemEvent, Consistent, Told, Asked, Recognised, FallbackKey, KeyFor;
    NamedSo(table, e);
    var waiting' := WaitingAfter(names, waiting, e);
    forall n | KeyWho(table, n) == who ensures n !in Told(e) {
      if n in Told(e) { SameWho(table, e, n); }
    }
    if !IsItemEvent(e) { SameWho(table, e, FallbackKey(e).value); }
    forall n | n in waiting && KeyWho(table, n) == who ensures n == name { assert n in waiting'; }
  }

  lemma DeltaWaits(table: Table, names: set<Key>, waiting: map<Key, string>, e: StreamEvent, who: Key, name: Key)
    requires IsToolEvent(e) && Consistent(table, e) && Who(table, e) == who && e.eventType.ArgumentsDelta?
    requires !Recognised(names, e) && WaitsUnder(table, WaitingAfter(names, waiting, e), who, name)
    ensures WaitsUnder(table, waiting, who, name)
    ensures TextAt(WaitingAfter(names, waiting, e), name) == TextAt(waiting, name) + e.delta
  {
    hide Who, KeyWho, IsToolEvent, IsItemEvent, Consistent, Told, Asked, Recognised, FallbackKey, KeyFor;
    NamedSo(table, e);
    SameWho(table, e, FallbackKey(e).value);
    var waiting' := WaitingAfter(names, waiting, e);
    forall n | n in waiting && KeyWho(table, n) == who ensures n == name { assert n in waiting'; }
    assert TextAt(waiting, name) + "" == TextAt(waiting, name);
    if e.delta != "" { assert FallbackKey(e).value in waiting'; }
  }

  /** An item that is never announced has received what waits for it, if that is under one name. */
  lemma {:induction false} WaitingIsReceived(table: Table, events: seq<StreamEvent>, who: Key, name: Key)
    requires AllConsistent(table, events) && !Opened(table, events, who)
    requires WaitsUnder(table, Waiting(events), who, name)
    ensures TextAt(Waiting(events), name) == Received(table, events, who)
  {
    hide Who, Consistent, IsToolEvent, AllConsistent, Recognised, Told, NamesAfter, WaitingAfter, IsItemEvent, Opened,
         WaitsUnder, KeyWho;
    if events != [] {
      var before, e := events[..|events| - 1], events[|events| - 1];
      ConsistentSnoc(table, events);
      OwnersAreOpened(table, before);
      OpenedSnoc(table, before, e, who);
      NamesSnoc(table, before, e);
      NamedSo(table, e);
      if Who(table, e) == who {
        if Recognised(Names(before), e) { RecognisedOwned(table, Names(before), Owners(table, before), e); }
        DeltaWaits(table, Names(before), Waiting(before), e, who, name);
      } else {
        OthersWait(table, Names(before), Waiting(before), e, who, name);
      }
      WaitingIsReceived(table, before, who, name);
    }
  }

  // ---- the output -------------------------------------------------------------------------------------------

  function OutputEvents(output: seq<Item>): seq<StreamEvent> {
    if output == [] then [] else
      OutputEvents(output[..|output| - 1]) +
      if output[|output| - 1].itemType.ToolType? then [TerminalEvent(output[|output| - 1])] else []
  }

  /** The events of a stream that are about tools, those of the terminal response at the end. */
  function ToolEvents(events: seq<StreamEvent>): seq<StreamEvent> {
    if events == [] then [] else
      var e := events[|events| - 1];
      ToolEvents(events[..|events| - 1]) +
      if IsToolEvent(e) then [e]
      else if IsTerminal(e) && TerminalResponse(e).Some? then OutputEvents(TerminalResponse(e).value.output)
      else []
  }

  /** Nothing comes after the terminal event, if there is one. */
  predicate TerminalLast(events: seq<StreamEvent>) { forall k :: 0 <= k < |events| - 1 ==> !IsTerminal(events[k]) }

  lemma {:induction false} PlainConcat(a: seq<StreamEvent>, b: seq<StreamEvent>)
    ensures Plain(a + b) == Plain(a) + Plain(b)
  {
    if b == [] {
      assert a + b == a && Plain(a) + [] == Plain(a);
    } else {
      var n := |b| - 1;
      assert (a + b)[..|a + b| - 1] == a + b[..n];
      PlainConcat(a, b[..n]);
      assert Plain(a) + (Plain(b[..n]) + [OnTool(b[n])]) == (Plain(a) + Plain(b[..n])) + [OnTool(b[n])];
    }
  }

  lemma {:induction false} OutputPlain(output: seq<Item>)
    ensures OutputActions(output) == Plain(OutputEvents(output))
  {
    if output != [] {
      var n := |output| - 1;
      OutputPlain(output[..n]);
      var last := if output[n].itemType.ToolType? then [TerminalEvent(output[n])] else [];
      PlainConcat(OutputEvents(output[..n]), last);
    }
  }

  lemma {:induction false} ActionsPlain(events: seq<StreamEvent>)
    requires forall k :: 0 <= k < |events| ==> !IsTerminal(events[k])
    ensures Actions(events) == Plain(ToolEvents(events)) && !Terminated(events)
  {
    hide TerminalResponse, OutputActions, OutputEvents, IsToolEvent;
    if events != [] {
      var n := |events| - 1;
      ActionsPlain(events[..n]);
      var last := if IsToolEvent(events[n]) then [events[n]] else [];
      PlainConcat(ToolEvents(events[..n]), last);
    }
  }

  lemma TerminalIsNoTool(e: StreamEvent)
    ensures IsTerminal(e) ==> !IsToolEvent(e)
  {
  }

  lemma TerminalPlain(events: seq<StreamEvent>, e: StreamEvent)
    requires IsTerminal(e) && Actions(events) == Plain(ToolEvents(events)) && !Terminated(events)
    ensures AllActions(events + [e]) == Plain(ToolEvents(events + [e])) + [FlushTools]
  {
    hide TerminalResponse, OutputActions, OutputEvents, IsToolEvent;
    TerminalIsNoTool(e);
    assert (events + [e])[..|events|] == events;
    var response := TerminalResponse(e);
    var last := if response.Some? then OutputEvents(response.value.output) else [];
    var items := if response.Some? then OutputActions(response.value.output) else [];
    if response.Some? { OutputPlain(response.value.output); }
    assert items == Plain(last);
    PlainConcat(ToolEvents(events), last);
    assert ToolEvents(events + [e]) == ToolEvents(events) + last;
    assert AllActions(events + [e]) == Actions(events) + (items + [FlushTools]) + [];
  }

  lemma AllActionsPlain(events: seq<StreamEvent>)
    requires TerminalLast(events)
    ensures AllActions(events) == Plain(ToolEvents(events)) + [FlushTools]
  {
    hide Actions, ToolEvents, Plain;
    if events != [] && IsTerminal(events[|events| - 1]) {
      var n := |events| - 1;
      ActionsPlain(events[..n]);
      TerminalPlain(events[..n], events[n]);
      assert events == events[..n] + [events[n]];
    } else {
      ActionsPlain(events);
    }
  }

  /** What a client is sent of an item by the end: its account, or, if it was never announced, all
      that was received for it. */
  function Given(table: Table, events: seq<StreamEvent>, who: Key): string {
    if Opened(table, events, who) then AccountOf(table, events, who).sent else Received(table, events, who)
  }

  /** The tools after the finalizer. */
  lemma AllFollows(table: Table, events: seq<StreamEvent>, includeUsage: bool)
    returns (rest: seq<Key>, accounts: seq<Account>)
    requires Run(events, includeUsage).Some? && TerminalLast(events)
    requires AllConsistent(table, ToolEvents(events))
    ensures var tools := ToolEvents(events);
            && Lists(rest, Waiting(tools))
            && |AllOwners(table, tools, rest)| == |accounts| == Seen(Output(events, includeUsage))
            && (forall t :: 0 <= t < |accounts| ==> Emitted(Output(events, includeUsage), t) == accounts[t].sent)
            && (Distinct(Owners(table, tools)) ==>
                  accounts == Accounts(table, tools, Owners(table, tools)) + RestAccounts(Waiting(tools), rest))
  {
    hide Run, Follows, AllConsistent, Play, Playable, Plain, Distinct, Accounts, RestAccounts, Owners, Waiting, Names,
         Emitted, Seen, Lists, Holds, ToolEvents, AllActions, Output, FlushAll;
    var tools := ToolEvents(events);
    AllActionsPlain(events);
    var before := PlainFollows(table, tools);
    var (ts, trace) := Play(Plain(tools));
    WaitingIsApart(table, tools);
    rest := FlushAllHolds(table, ts, trace, Names(tools), Owners(table, tools), Waiting(tools), before);
    accounts := before + RestAccounts(Waiting(tools), rest);
    RestLength(table, Waiting(tools), rest);
    PlaySnoc(Plain(tools), FlushTools);
    OutputPlays(events, includeUsage);
    IndexesAreDense(events, includeUsage);
    var trace' := trace + FlushAll(ts).1;
    HoldsLength(FlushAll(ts).0, trace', accounts);
    forall t | 0 <= t < |accounts| ensures Emitted(Output(events, includeUsage), t) == accounts[t].sent {
      ToolsCount(Output(events, includeUsage), t);
      HoldsAt(FlushAll(ts).0, trace', accounts, t);
    }
  }

  lemma RestLength(table: Table, waiting: map<Key, string>, rest: seq<Key>)
    ensures |RestAccounts(waiting, rest)| == |rest| == |WhoAll(table, rest)|
  {
  }

  lemma HoldsAt(ts: Tools, trace: seq<Chunk>, accounts: seq<Account>, t: nat)
    requires Holds(ts, trace, accounts) && t < |accounts|
    ensures Emitted(trace, t) == accounts[t].sent
  {
    hide Emitted;
  }

  /** In every error-free stream whose events name their items consistently, there are as many Chat
      tool calls as items if and only if the names keep the items together. */
  lemma CallsMatchItems(table: Table, events: seq<StreamEvent>, includeUsage: bool)
    requires Run(events, includeUsage).Some? && TerminalLast(events)
    requires AllConsistent(table, ToolEvents(events))
    ensures Seen(Output(events, includeUsage)) == |Items(table, ToolEvents(events))|
            <==> Traceable(table, ToolEvents(events))
  {
    hide Run, AllConsistent, Traceable, Lists, Items, Seen, Emitted, Distinct, AllOwners, Output, TerminalLast;
    var rest, accounts := AllFollows(table, events, includeUsage);
    CallsCountItems(table, ToolEvents(events), rest);
  }

  /** The account of an item that is never announced is what was received for it. */
  lemma AccountIsGiven(table: Table, events: seq<StreamEvent>, rest: seq<Key>, t: nat)
    requires AllConsistent(table, events) && Lists(rest, Waiting(events)) && Traceable(table, events)
    requires t < |AllOwners(table, events, rest)|
    ensures |Accounts(table, events, Owners(table, events)) + RestAccounts(Waiting(events), rest)|
            == |AllOwners(table, events, rest)|
    ensures (Accounts(table, events, Owners(table, events)) + RestAccounts(Waiting(events), rest))[t].sent
            == Given(table, events, AllOwners(table, events, rest)[t])
  {
    hide AllConsistent, Owners, Waiting, KeyWho, Opened, Received, AccountOf, Distinct, KeepsTrack;
    var owners := Owners(table, events);
    OwnersAreOpened(table, events);
    if t < |owners| {
      assert owners[t] in owners;
    } else {
      var name := rest[t - |owners|];
      assert name in rest;
      WaitingIsReceived(table, events, KeyWho(table, name), name);
    }
  }

  /** Then Chat tool calls and upstream items correspond one to one, and each call is sent what its
      item is given. */
  lemma ItemsAreSentOnce(table: Table, events: seq<StreamEvent>, includeUsage: bool) returns (owners: seq<Key>)
    requires Run(events, includeUsage).Some? && TerminalLast(events)
    requires AllConsistent(table, ToolEvents(events)) && Traceable(table, ToolEvents(events))
    ensures |owners| == Seen(Output(events, includeUsage)) && Distinct(owners)
    ensures forall who :: who in owners <==> Mentioned(table, ToolEvents(events), who)
    ensures forall t :: 0 <= t < |owners| ==>
              Emitted(Output(events, includeUsage), t) == Given(table, ToolEvents(events), owners[t])
  {
    hide Run, AllConsistent, Traceable, Lists, Seen, Emitted, Distinct, AllOwners, Output, TerminalLast, Mentioned,
         Given, ToolEvents, Accounts, RestAccounts;
    var tools := ToolEvents(events);
    var rest, accounts := AllFollows(table, events, includeUsage);
    owners := AllOwners(table, tools, rest);
    AllOwnersAreDistinct(table, tools, rest);
    TraceableIsDistinct(table, tools);
    forall who ensures who in owners <==> Mentioned(table, tools, who) {
      AllOwnersAreItems(table, tools, rest, who);
    }
    forall t | 0 <= t < |owners|
      ensures Emitted(Output(events, includeUsage), t) == Given(table, tools, owners[t])
    {
      AccountIsGiven(table, tools, rest, t);
    }
  }

  lemma TraceableIsDistinct(table: Table, events: seq<StreamEvent>)
    requires AllConsistent(table, events) && Traceable(table, events)
    ensures Distinct(Owners(table, events))
  {
    hide AllConsistent, Owners, Distinct, KeepsTrack, NothingStrays;
    TrackedAreDistinct(table, events);
  }
}
