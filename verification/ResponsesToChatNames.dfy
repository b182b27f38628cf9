/** What a Responses stream calls its items, and which of its items the Responses to Chat
    converter tells apart. An item may go by an output index, by item ids and by call ids;
    every event names it by some of them. */
module ResponsesToChatNames {
  import opened Basics
  import opened ResponsesDto
  import opened ResponsesToChat
  import opened ToolKeys
  import Text

  // ---- items and their names -------------------------------------------------------------

  /** The upstream's own assignment: which output index an item id stands for, and which
      item a call id stands for. An item without an output index is called by its item id,
      and one without that by its call id. */
  datatype Table = Table(slots: map<string, int>, calls: map<string, Key>)

  function WhoItem(table: Table, id: string): Key {
    if id in table.slots then OutputKey(table.slots[id]) else ItemKey(id)
  }

  function WhoCall(table: Table, id: string): Key { if id in table.calls then table.calls[id] else CallKey(id) }

  /** The item a name stands for. */
  function KeyWho(table: Table, name: Key): Key {
    match name
    case OutputKey(_) => name
    case ItemKey(id) => WhoItem(table, id)
    case CallKey(id) => WhoCall(table, id)
  }

  /** The item an event is about. */
  function Who(table: Table, e: StreamEvent): Key {
    if e.outputIndex.Some? then OutputKey(e.outputIndex.value)
    else if ItemIdOf(e) != "" then WhoItem(table, ItemIdOf(e))
    else WhoCall(table, CallIdOf(e))
  }

  predicate IsItemEvent(e: StreamEvent) { IsToolEvent(e) && (e.eventType.ItemAdded? || e.eventType.ItemDone?) }

  function ByIndex(index: Option<int>): set<Key> { if index.Some? then {OutputKey(index.value)} else {} }

  function ById(id: string): set<Key> { if id == "" then {} else {ItemKey(id)} }

  function ByCall(id: string): set<Key> { if id == "" then {} else {CallKey(id)} }

  /** The names an event makes known, if it makes any known. */
  function Told(e: StreamEvent): set<Key> {
    ByIndex(e.outputIndex) + ById(ItemIdOf(e)) + if IsItemEvent(e) then ByCall(CallIdOf(e)) else {}
  }

  /** The names under which an event looks for its item. */
  function Asked(e: StreamEvent): set<Key> {
    if IsItemEvent(e) then Told(e) else ByIndex(e.outputIndex) + ById(Text.Trim(e.itemId))
  }

  /** An event names its item, and all names it carries stand for that item. */
  predicate Consistent(table: Table, e: StreamEvent) {
    && (if IsItemEvent(e) then KeyFor(e).Some?
        else FallbackKey(e).Some? && (e.outputIndex.None? ==> e.item.None?))
    && forall name :: name in Asked(e) + Told(e) ==> KeyWho(table, name) == Who(table, e)
  }

  predicate AllConsistent(table: Table, events: seq<StreamEvent>) {
    forall k :: 0 <= k < |events| ==> IsToolEvent(events[k]) && Consistent(table, events[k])
  }

  // ---- names along a stream ----------------------------------------------------------------

  predicate Recognised(names: set<Key>, e: StreamEvent) { exists name :: name in Asked(e) && name in names }

  /** Items make their names known, and so do finished arguments of an item unknown so far. */
  predicate Enrols(names: set<Key>, e: StreamEvent) {
    IsItemEvent(e) || (e.eventType.ArgumentsDone? && !Recognised(names, e))
  }

  /** Arguments of an item that is not known under any name they carry have to wait. */
  predicate HasToWait(names: set<Key>, e: StreamEvent) {
    e.eventType.ArgumentsDelta? && e.delta != "" && FallbackKey(e).Some? && !Recognised(names, e)
  }

  function NamesAfter(names: set<Key>, e: StreamEvent): set<Key> {
    if Enrols(names, e) then names + Told(e) else names
  }

  function OwnersAfter(table: Table, names: set<Key>, owners: seq<Key>, e: StreamEvent): seq<Key> {
    if Enrols(names, e) && !Recognised(names, e) then owners + [Who(table, e)] else owners
  }

  function TextAt(waiting: map<Key, string>, name: Key): string { if name in waiting then waiting[name] else "" }

  function WaitingAfter(names: set<Key>, waiting: map<Key, string>, e: StreamEvent): map<Key, string> {
    if Enrols(names, e) then waiting - Told(e)
    else if HasToWait(names, e) then
      waiting[FallbackKey(e).value := TextAt(waiting, FallbackKey(e).value) + e.delta]
    else waiting
  }

  /** The names known after a stream. */
  function Names(events: seq<StreamEvent>): set<Key> {
    if events == [] then {} else NamesAfter(Names(events[..|events| - 1]), events[|events| - 1])
  }

  /** The items that got a tool call along a stream, in the order of the calls. */
  function Owners(table: Table, events: seq<StreamEvent>): seq<Key> {
    if events == [] then [] else
      var before := events[..|events| - 1];
      OwnersAfter(table, Names(before), Owners(table, before), events[|events| - 1])
  }

  /** The arguments that still wait for their item after a stream, by the name they carried. */
  function Waiting(events: seq<StreamEvent>): map<Key, string> {
    if events == [] then map[] else
      var before := events[..|events| - 1];
      WaitingAfter(Names(before), Waiting(before), events[|events| - 1])
  }

  lemma NamesSnoc(table: Table, events: seq<StreamEvent>, e: StreamEvent)
    ensures Names(events + [e]) == NamesAfter(Names(events), e)
    ensures Owners(table, events + [e]) == OwnersAfter(table, Names(events), Owners(table, events), e)
    ensures Waiting(events + [e]) == WaitingAfter(Names(events), Waiting(events), e)
  {
    assert (events + [e])[..|events|] == events;
  }

  // ---- which items are mentioned, and which got a call ------------------------------------------

  /** The item was announced or its arguments were called done. */
  predicate Opened(table: Table, events: seq<StreamEvent>, who: Key) {
    exists k :: 0 <= k < |events| && !events[k].eventType.ArgumentsDelta? && Who(table, events[k]) == who
  }

  /** An empty delta says nothing about any item. */
  predicate Counts(e: StreamEvent) { !e.eventType.ArgumentsDelta? || e.delta != "" }

  predicate Mentioned(table: Table, events: seq<StreamEvent>, who: Key) {
    exists k :: 0 <= k < |events| && Counts(events[k]) && Who(table, events[k]) == who
  }

  /** The items a stream is about. */
  function Items(table: Table, events: seq<StreamEvent>): set<Key> {
    set k | 0 <= k < |events| && Counts(events[k]) :: Who(table, events[k])
  }

  predicate Distinct(owners: seq<Key>) {
    forall i, j :: 0 <= i < j < |owners| ==> owners[i] != owners[j]
  }

  /** An event about an item that has a call recognises it, unless it is only a delta. */
  predicate KeepsTrack(table: Table, before: seq<StreamEvent>, e: StreamEvent) {
    !e.eventType.ArgumentsDelta? && Opened(table, before, Who(table, e)) ==> Recognised(Names(before), e)
  }

  /** What still waits at the end is all there is of its item. */
  predicate NothingStrays(table: Table, events: seq<StreamEvent>) {
    && (forall name :: name in Waiting(events) ==> !Opened(table, events, KeyWho(table, name)))
    && (forall a, b :: a in Waiting(events) && b in Waiting(events) && KeyWho(table, a) == KeyWho(table, b) ==> a == b)
  }

  /** The names a stream uses keep its items together. */
  predicate Traceable(table: Table, events: seq<StreamEvent>) {
    && (forall k :: 0 <= k < |events| ==> KeepsTrack(table, events[..k], events[k]))
    && NothingStrays(table, events)
  }

  lemma OpenedSnoc(table: Table, events: seq<StreamEvent>, e: StreamEvent, who: Key)
    ensures Opened(table, events + [e], who)
            <==> Opened(table, events, who) || (!e.eventType.ArgumentsDelta? && Who(table, e) == who)
  {
    hide Who;
    var more := events + [e];
    if k :| 0 <= k < |events| && !events[k].eventType.ArgumentsDelta? && Who(table, events[k]) == who {
      assert !more[k].eventType.ArgumentsDelta? && Who(table, more[k]) == who;
    }
    if !e.eventType.ArgumentsDelta? && Who(table, e) == who {
      assert !more[|events|].eventType.ArgumentsDelta? && Who(table, more[|events|]) == who;
    }
    if k :| 0 <= k < |more| && !more[k].eventType.ArgumentsDelta? && Who(table, more[k]) == who {
      if k < |events| { assert !events[k].eventType.ArgumentsDelta? && Who(table, events[k]) == who; }
    }
  }

  lemma MentionedSnoc(table: Table, events: seq<StreamEvent>, e: StreamEvent, who: Key)
    ensures Mentioned(table, events + [e], who)
            <==> Mentioned(table, events, who) || (Counts(e) && Who(table, e) == who)
  {
    hide Who, Counts;
    var more := events + [e];
    if k :| 0 <= k < |events| && Counts(events[k]) && Who(table, events[k]) == who {
      assert Counts(more[k]) && Who(table, more[k]) == who;
    }
    if Counts(e) && Who(table, e) == who { assert Counts(more[|events|]) && Who(table, more[|events|]) == who; }
    if k :| 0 <= k < |more| && Counts(more[k]) && Who(table, more[k]) == who {
      if k < |events| { assert Counts(events[k]) && Who(table, events[k]) == who; }
    }
  }

  lemma ConsistentSnoc(table: Table, events: seq<StreamEvent>)
    requires events != [] && AllConsistent(table, events)
    ensures AllConsistent(table, events[..|events| - 1])
    ensures var e := events[|events| - 1]; IsToolEvent(e) && Consistent(table, e)
    ensures events == events[..|events| - 1] + [events[|events| - 1]]
  {
    hide Consistent, IsToolEvent;
  }

  /** A consistent event has a name, which stands for its item, and makes it known. */
  lemma NamedSo(table: Table, e: StreamEvent)
    requires IsToolEvent(e) && Consistent(table, e)
    ensures IsItemEvent(e) ==> KeyFor(e).Some? && KeyFor(e).value in Told(e) && Asked(e) == Told(e)
    ensures !IsItemEvent(e) ==> FallbackKey(e).Some? && FallbackKey(e).value in Asked(e)
                                && FallbackKey(e).value in Told(e) && !FallbackKey(e).value.CallKey?
    ensures e.eventType.ArgumentsDelta? || e.eventType.ArgumentsDone? || IsItemEvent(e)
    ensures e.outputIndex.Some? ==>
              KeyFor(e) == Some(OutputKey(e.outputIndex.value)) && FallbackKey(e) == KeyFor(e)
    ensures (e.eventType.ArgumentsDelta? || e.eventType.ArgumentsDone?) ==> !IsItemEvent(e)
  {
    hide Text.Trim;
  }

  lemma SameWho(table: Table, e: StreamEvent, name: Key)
    requires Consistent(table, e) && (name in Asked(e) || name in Told(e))
    ensures KeyWho(table, name) == Who(table, e)
  {
    hide Asked, Told, KeyWho, Who;
  }

  /** Every known name is that of an item with a call. */
  ghost predicate Owned(table: Table, names: set<Key>, owners: seq<Key>) {
    forall name :: name in names ==> KeyWho(table, name) in owners
  }

  lemma RecognisedOwned(table: Table, names: set<Key>, owners: seq<Key>, e: StreamEvent)
    requires Owned(table, names, owners) && Consistent(table, e) && Recognised(names, e)
    ensures Who(table, e) in owners
  {
    hide Who, KeyWho, Asked, Told, Consistent;
    var name :| name in Asked(e) && name in names;
    SameWho(table, e, name);
  }

  lemma OwnedAfter(table: Table, names: set<Key>, owners: seq<Key>, e: StreamEvent)
    requires Owned(table, names, owners) && Consistent(table, e)
    ensures Owned(table, NamesAfter(names, e), OwnersAfter(table, names, owners, e))
    ensures Enrols(names, e) ==> Who(table, e) in OwnersAfter(table, names, owners, e)
  {
    hide Who, KeyWho, Asked, Told, Consistent, Recognised;
    if Recognised(names, e) { RecognisedOwned(table, names, owners, e); }
    var owners' := OwnersAfter(table, names, owners, e);
    assert forall who :: who in owners ==> who in owners';
    if Enrols(names, e) {
      assert Who(table, e) in owners';
      forall name | name in names + Told(e) ensures KeyWho(table, name) in owners' {
        if name in Told(e) { SameWho(table, e, name); }
      }
    }
  }

  /** The items with a call are those that were opened. */
  lemma {:induction false} OwnersAreOpened(table: Table, events: seq<StreamEvent>)
    requires AllConsistent(table, events)
    ensures Owned(table, Names(events), Owners(table, events))
    ensures forall who :: who in Owners(table, events) <==> Opened(table, events, who)
  {
    hide Who, Opened, Consistent, Recognised, IsToolEvent, Owned, NamesAfter, IsItemEvent, AllConsistent;
    if events == [] {
      NothingOwned(table);
    } else {
      var before, e := events[..|events| - 1], events[|events| - 1];
      ConsistentSnoc(table, events);
      OwnersAreOpened(table, before);
      var names, owners := Names(before), Owners(table, before);
      OwnedAfter(table, names, owners, e);
      NamesSnoc(table, before, e);
      NamedSo(table, e);
      if Recognised(names, e) { RecognisedOwned(table, names, owners, e); }
      forall who ensures who in Owners(table, events) <==> Opened(table, events, who) {
        OpenedSnoc(table, before, e, who);
      }
    }
  }

  lemma NothingOwned(table: Table)
    ensures Owned(table, Names([]), Owners(table, []))
    ensures Owners(table, []) == [] && forall who :: !Opened(table, [], who)
  {
  }

  lemma DistinctSnoc(owners: seq<Key>, who: Key)
    ensures Distinct(owners + [who]) <==> Distinct(owners) && who !in owners
  {
    var more := owners + [who];
    if Distinct(more) {
      forall i | 0 <= i < |owners| ensures owners[i] != who { assert more[i] != more[|owners|]; }
      forall i, j | 0 <= i < j < |owners| ensures owners[i] != owners[j] { assert more[i] != more[j]; }
    }
  }

  /** No item gets two calls exactly if every event recognises the item it is about. */
  lemma {:induction false} TrackedAreDistinct(table: Table, events: seq<StreamEvent>)
    requires AllConsistent(table, events)
    ensures Distinct(Owners(table, events))
            <==> forall k :: 0 <= k < |events| ==> KeepsTrack(table, events[..k], events[k])
  {
    hide Who, Opened, Consistent, Recognised, IsToolEvent, NamesAfter, Distinct, IsItemEvent, KeepsTrack,
         AllConsistent;
    if events == [] {
      NoneDistinct();
    } else {
      var before, e := events[..|events| - 1], events[|events| - 1];
      ConsistentSnoc(table, events);
      TrackedAreDistinct(table, before);
      OwnersAreOpened(table, before);
      NamesSnoc(table, before, e);
      NamedSo(table, e);
      TracksOne(table, before, e);
      DistinctSnoc(Owners(table, before), Who(table, e));
      assert forall k :: 0 <= k < |before| ==> before[..k] == events[..k];
      TracksSnoc(table, events);
    }
  }

  lemma NoneDistinct()
    ensures Distinct([])
  {
  }

  lemma TracksSnoc(table: Table, events: seq<StreamEvent>)
    requires events != []
    ensures var before := events[..|events| - 1];
            (forall k :: 0 <= k < |events| ==> KeepsTrack(table, events[..k], events[k])) <==>
            (forall k :: 0 <= k < |before| ==> KeepsTrack(table, before[..k], before[k]))
            && KeepsTrack(table, before, events[|events| - 1])
  {
    hide KeepsTrack;
    var before := events[..|events| - 1];
    forall k | 0 <= k < |before| ensures before[..k] == events[..k] {}
    if forall k :: 0 <= k < |events| ==> KeepsTrack(table, events[..k], events[k]) {
      forall k | 0 <= k < |before| ensures KeepsTrack(table, before[..k], before[k]) {
        assert KeepsTrack(table, events[..k], events[k]);
      }
      assert KeepsTrack(table, events[..|before|], events[|before|]);
    }
    if (forall k :: 0 <= k < |before| ==> KeepsTrack(table, before[..k], before[k]))
       && KeepsTrack(table, before, events[|events| - 1]) {
      forall k | 0 <= k < |events| ensures KeepsTrack(table, events[..k], events[k]) {
        if k < |before| { assert KeepsTrack(table, before[..k], before[k]); }
      }
    }
  }

  lemma TracksOne(table: Table, before: seq<StreamEvent>, e: StreamEvent)
    requires e.eventType.ArgumentsDelta? || e.eventType.ArgumentsDone? || IsItemEvent(e)
    requires forall who :: who in Owners(table, before) <==> Opened(table, before, who)
    ensures var names := Names(before);
            KeepsTrack(table, before, e) <==>
            !Enrols(names, e) || Recognised(names, e) || Who(table, e) !in Owners(table, before)
  {
    hide Who, Opened, Recognised, Owners, Names;
  }

  // ---- what waits ---------------------------------------------------------------------------------

  /** What waits goes by an output index or an item id that is not known. */
  predicate Apart(names: set<Key>, waiting: map<Key, string>) {
    forall name :: name in waiting ==> name !in names && !name.CallKey?
  }

  lemma ApartAfter(table: Table, names: set<Key>, waiting: map<Key, string>, e: StreamEvent)
    requires Apart(names, waiting) && IsToolEvent(e) && Consistent(table, e)
    ensures Apart(NamesAfter(names, e), WaitingAfter(names, waiting, e))
  {
    hide Told, Consistent, Asked, FallbackKey, KeyFor, IsItemEvent;
    NamedSo(table, e);
  }

  lemma {:induction false} WaitingIsApart(table: Table, events: seq<StreamEvent>)
    requires AllConsistent(table, events)
    ensures Apart(Names(events), Waiting(events))
  {
    hide Apart, Consistent, NamesAfter, WaitingAfter, AllConsistent;
    if events == [] {
      NoneApart();
    } else {
      ConsistentSnoc(table, events);
      WaitingIsApart(table, events[..|events| - 1]);
      ApartAfter(table, Names(events[..|events| - 1]), Waiting(events[..|events| - 1]), events[|events| - 1]);
    }
  }

  lemma NoneApart()
    ensures Apart(Names([]), Waiting([]))
  {
  }

  predicate Waits(table: Table, waiting: map<Key, string>, who: Key) {
    exists name :: name in waiting && KeyWho(table, name) == who
  }

  /** Each item that is mentioned got a call or has arguments that wait. */
  lemma {:induction false} MentionedIsKept(table: Table, events: seq<StreamEvent>, who: Key)
    requires AllConsistent(table, events)
    ensures Mentioned(table, events, who) <==> who in Owners(table, events) || Waits(table, Waiting(events), who)
  {
    hide Who, Opened, Consistent, IsToolEvent, Owned, NamesAfter, IsItemEvent, AllConsistent, Mentioned, Waits,
         WaitingAfter, OwnersAfter;
    if events == [] {
      NoneMentioned(table, who);
    } else {
      var before, e := events[..|events| - 1], events[|events| - 1];
      ConsistentSnoc(table, events);
      MentionedIsKept(table, before, who);
      OwnersAreOpened(table, before);
      NamesSnoc(table, before, e);
      MentionedSnoc(table, before, e, who);
      KeptAfter(table, Names(before), Owners(table, before), Waiting(before), e, who);
    }
  }

  lemma NoneMentioned(table: Table, who: Key)
    ensures !Mentioned(table, [], who) && who !in Owners(table, []) && !Waits(table, Waiting([]), who)
  {
  }

  lemma KeptAfter(table: Table, names: set<Key>, owners: seq<Key>, waiting: map<Key, string>, e: StreamEvent, who: Key)
    requires Owned(table, names, owners) && IsToolEvent(e) && Consistent(table, e)
    ensures var owners' := OwnersAfter(table, names, owners, e);
            who in owners' || Waits(table, WaitingAfter(names, waiting, e), who)
            <==> who in owners || Waits(table, waiting, who) || (Counts(e) && Who(table, e) == who)
  {
    hide Who, Consistent, IsToolEvent, Owned, IsItemEvent, Recognised, Told, Asked, KeyWho, FallbackKey, KeyFor;
    NamedSo(table, e);
    OwnedAfter(table, names, owners, e);
    var waiting' := WaitingAfter(names, waiting, e);
    if Recognised(names, e) { RecognisedOwned(table, names, owners, e); }
    if Enrols(names, e) {
      if Waits(table, waiting, who) {
        var name :| name in waiting && KeyWho(table, name) == who;
        if name in Told(e) { SameWho(table, e, name); } else { assert name in waiting'; }
      }
    } else if HasToWait(names, e) {
      var mine := FallbackKey(e).value;
      SameWho(table, e, mine);
      assert mine in waiting' && forall name :: name in waiting' <==> name in waiting || name == mine;
    }
  }

  // ---- counting ------------------------------------------------------------------------------------

  function Elements(s: seq<Key>): set<Key> { set k | k in s }

  lemma {:induction false} DistinctCounts(s: seq<Key>)
    ensures |Elements(s)| <= |s| && (|Elements(s)| == |s| <==> Distinct(s))
  {
    hide Distinct;
    if s == [] {
      NoneDistinct();
      assert Elements(s) == {};
    } else {
      var n := |s| - 1;
      DistinctCounts(s[..n]);
      DistinctSnoc(s[..n], s[n]);
      assert s == s[..n] + [s[n]];
      assert Elements(s) == Elements(s[..n]) + {s[n]};
    }
  }

  /** The items of what waits. */
  function WhoAll(table: Table, names: seq<Key>): seq<Key> {
    seq(|names|, i requires 0 <= i < |names| => KeyWho(table, names[i]))
  }

  ghost predicate Lists(names: seq<Key>, waiting: map<Key, string>) {
    Distinct(names) && forall name :: name in names <==> name in waiting
  }

  /** All items that get a call, those whose arguments wait to the end among them. */
  function AllOwners(table: Table, events: seq<StreamEvent>, rest: seq<Key>): seq<Key> {
    Owners(table, events) + WhoAll(table, rest)
  }

  lemma AllOwnersAreItems(table: Table, events: seq<StreamEvent>, rest: seq<Key>, who: Key)
    requires AllConsistent(table, events) && Lists(rest, Waiting(events))
    ensures who in AllOwners(table, events, rest) <==> Mentioned(table, events, who)
  {
    hide Who, Mentioned, Waiting, Owners, AllConsistent, KeyWho;
    MentionedIsKept(table, events, who);
    var later := WhoAll(table, rest);
    if Waits(table, Waiting(events), who) {
      var name :| name in Waiting(events) && KeyWho(table, name) == who;
      var i :| 0 <= i < |rest| && rest[i] == name;
      assert later[i] == who;
    }
    if who in later {
      var i :| 0 <= i < |later| && later[i] == who;
      assert rest[i] in Waiting(events) && KeyWho(table, rest[i]) == who;
    }
  }

  /** Calls and items correspond one to one exactly if the names keep the items together. */
  lemma AllOwnersAreDistinct(table: Table, events: seq<StreamEvent>, rest: seq<Key>)
    requires AllConsistent(table, events) && Lists(rest, Waiting(events))
    ensures Distinct(AllOwners(table, events, rest)) <==> Traceable(table, events)
  {
    hide Who, Waiting, Owners, AllConsistent, KeyWho, KeepsTrack, Opened;
    OwnersAreOpened(table, events);
    TrackedAreDistinct(table, events);
    var owners, later := Owners(table, events), WhoAll(table, rest);
    if Distinct(owners + later) {
      DistinctApart(owners, later);
      DistinctStrays(table, events, rest);
    }
    if Traceable(table, events) {
      forall i, j | 0 <= i < j < |later| ensures later[i] != later[j] { assert rest[i] in Waiting(events); }
      forall i | 0 <= i < |later| ensures later[i] !in owners { assert rest[i] in Waiting(events); }
    }
  }

  lemma DistinctApart(a: seq<Key>, b: seq<Key>)
    requires Distinct(a + b)
    ensures Distinct(a) && Distinct(b) && forall k :: k in a ==> k !in b
  {
    var s := a + b;
    forall i, j | 0 <= i < j < |a| ensures a[i] != a[j] { assert s[i] != s[j]; }
    forall i, j | 0 <= i < j < |b| ensures b[i] != b[j] { assert s[|a| + i] != s[|a| + j]; }
    forall i, j | 0 <= i < |a| && 0 <= j < |b| ensures a[i] != b[j] { assert s[i] != s[|a| + j]; }
  }

  lemma DistinctStrays(table: Table, events: seq<StreamEvent>, rest: seq<Key>)
    requires Lists(rest, Waiting(events))
    requires forall who :: who in Owners(table, events) <==> Opened(table, events, who)
    requires Distinct(WhoAll(table, rest)) && forall k :: k in Owners(table, events) ==> k !in WhoAll(table, rest)
    ensures NothingStrays(table, events)
  {
    hide Waiting, Owners, KeyWho, Opened;
    var later := WhoAll(table, rest);
    forall name | name in Waiting(events) ensures !Opened(table, events, KeyWho(table, name)) {
      var i :| 0 <= i < |rest| && rest[i] == name;
      assert later[i] in later;
    }
    forall a, b | a in Waiting(events) && b in Waiting(events) && KeyWho(table, a) == KeyWho(table, b) ensures a == b {
      var i :| 0 <= i < |rest| && rest[i] == a;
      var j :| 0 <= j < |rest| && rest[j] == b;
      assert later[i] == later[j];
    }
  }

  /** The number of calls is that of the items exactly if the names keep the items together. */
  lemma CallsCountItems(table: Table, events: seq<StreamEvent>, rest: seq<Key>)
    requires AllConsistent(table, events) && Lists(rest, Waiting(events))
    ensures |AllOwners(table, events, rest)| == |Items(table, events)| <==> Traceable(table, events)
  {
    hide AllOwners, AllConsistent, Traceable, Distinct, Lists, Who, Counts;
    var owners := AllOwners(table, events, rest);
    AllOwnersAreDistinct(table, events, rest);
    DistinctCounts(owners);
    forall who ensures who in owners <==> who in Items(table, events) {
      AllOwnersAreItems(table, events, rest, who);
    }
    assert Elements(owners) == Items(table, events);
  }
}
