/** When the arguments that the Responses to Chat converter sends for an item are those that
    were received for it. Arguments wait under the name they carry until their item becomes
    known by that name, so those that carry different names can change places. */
module ResponsesToChatOrder {
  import opened Basics
  import opened ResponsesDto
  import opened ResponsesToChat
  import opened ResponsesToChatActions
  import opened ResponsesToChatArguments
  import opened ResponsesToChatIdentity
  import opened ResponsesToChatNames
  import opened ToolKeys
  import Text

  // ---- snapshots --------------------------------------------------------------------------

  /** An item that carries arguments extends what was gathered for it. */
  predicate SnapshotGrows(table: Table, before: seq<StreamEvent>, e: StreamEvent) {
    HasSnapshot(e) ==> AccountOf(table, before, Who(table, e)).text <= e.item.value.arguments
  }

  predicate SnapshotsGrow(table: Table, events: seq<StreamEvent>) {
    forall k :: 0 <= k < |events| ==> SnapshotGrows(table, events[..k], events[k])
  }

  lemma GrowsBefore(table: Table, events: seq<StreamEvent>)
    requires events != [] && SnapshotsGrow(table, events)
    ensures SnapshotsGrow(table, events[..|events| - 1])
    ensures SnapshotGrows(table, events[..|events| - 1], events[|events| - 1])
  {
    hide SnapshotGrows;
    var before := events[..|events| - 1];
    forall k | 0 <= k < |before| ensures SnapshotGrows(table, before[..k], before[k]) {
      assert before[..k] == events[..k];
    }
  }

  lemma CatchesUp(sent: string, text: string)
    requires sent <= text
    ensures CatchUp(sent, text) == text
  {
    assert text == sent + text[|sent|..];
  }

  /** As long as snapshots extend what was gathered, all that is gathered is sent. */
  lemma {:induction false} AllIsSent(table: Table, events: seq<StreamEvent>, who: Key)
    requires SnapshotsGrow(table, events)
    ensures AccountOf(table, events, who).sent == AccountOf(table, events, who).text
  {
    hide Who, Recognised, NamesAfter, WaitingAfter, IsItemEvent, CatchUp, Brought, SnapshotsGrow, Enrols;
    if events != [] {
      var before, e := events[..|events| - 1], events[|events| - 1];
      GrowsBefore(table, events);
      AllIsSent(table, before, who);
      var account := AccountOf(table, before, who);
      if Who(table, e) == who && (Enrols(Names(before), e) || e.eventType.ArgumentsDone?) {
        CatchesUp(account.sent, AccountAfter(Names(before), Waiting(before), account, e).text);
      }
    }
  }

  // ---- the order of what waited ----------------------------------------------------------------

  /** An event that brings an item waiting arguments, or replaces what was gathered. */
  predicate Settles(table: Table, before: seq<StreamEvent>, e: StreamEvent, who: Key) {
    && Who(table, e) == who && Enrols(Names(before), e)
    && (HasSnapshot(e) || exists name :: name in Told(e) && name in Waiting(before))
  }

  /** The last event that settled anything for the item carried all arguments itself, or added what
      had waited where it belongs. */
  predicate InOrder(table: Table, events: seq<StreamEvent>, who: Key) {
    events == [] ||
    var before, e := events[..|events| - 1], events[|events| - 1];
    if Settles(table, before, e, who) then
      HasSnapshot(e) ||
      Received(table, before, who) == AccountOf(table, before, who).text + Brought(Waiting(before), e)
    else InOrder(table, before, who)
  }

  lemma InOrderSnoc(table: Table, events: seq<StreamEvent>, e: StreamEvent, who: Key)
    ensures InOrder(table, events + [e], who) <==>
            if Settles(table, events, e, who) then
              HasSnapshot(e) ||
              Received(table, events, who) == AccountOf(table, events, who).text + Brought(Waiting(events), e)
            else InOrder(table, events, who)
  {
    assert (events + [e])[..|events|] == events;
  }

  lemma NothingBrought(waiting: map<Key, string>, e: StreamEvent)
    requires !exists name :: name in Told(e) && name in waiting
    ensures Brought(waiting, e) == ""
  {
    hide ItemIdOf, CallIdOf, IsItemEvent;
    assert e.outputIndex.Some? ==> OutputKey(e.outputIndex.value) in Told(e);
    assert ItemIdOf(e) != "" ==> ItemKey(ItemIdOf(e)) in Told(e);
  }

  /** Events of other items leave alone what waits for an item. */
  lemma OthersKeepWaiting(table: Table, names: set<Key>, waiting: map<Key, string>, e: StreamEvent, who: Key)
    requires IsToolEvent(e) && Consistent(table, e) && Who(table, e) != who
    ensures Waits(table, WaitingAfter(names, waiting, e), who) <==> Waits(table, waiting, who)
  {
    hide Who, KeyWho, IsToolEvent, IsItemEvent, Consistent, Told, Asked, Recognised, FallbackKey, KeyFor;
    NamedSo(table, e);
    var waiting' := WaitingAfter(names, waiting, e);
    forall n | KeyWho(table, n) == who ensures n !in Told(e) {
      if n in Told(e) { SameWho(table, e, n); }
    }
    if !IsItemEvent(e) { SameWho(table, e, FallbackKey(e).value); }
    if n :| n in waiting && KeyWho(table, n) == who { assert n in waiting'; }
    if n :| n in waiting' && KeyWho(table, n) == who { assert n in waiting; }
  }

  /** An event of the item that settles nothing hands over nothing that waits. */
  lemma OwnKeepWaiting(table: Table, before: seq<StreamEvent>, e: StreamEvent, who: Key)
    requires IsToolEvent(e) && Consistent(table, e) && Who(table, e) == who && !Settles(table, before, e, who)
    ensures var waiting' := WaitingAfter(Names(before), Waiting(before), e);
            Waits(table, Waiting(before), who) || HasToWait(Names(before), e) ==> Waits(table, waiting', who)
  {
    hide Who, KeyWho, IsToolEvent, IsItemEvent, Consistent, Told, Asked, Recognised, FallbackKey, KeyFor, Names,
         Waiting, HasSnapshot;
    NamedSo(table, e);
    var waiting := Waiting(before);
    var waiting' := WaitingAfter(Names(before), waiting, e);
    if HasToWait(Names(before), e) {
      SameWho(table, e, FallbackKey(e).value);
      assert FallbackKey(e).value in waiting';
    } else if n :| n in waiting && KeyWho(table, n) == who {
      assert n in waiting';
    }
  }

  /** And if it does not have to wait itself, it adds its delta, if it is one. */
  lemma OwnText(table: Table, before: seq<StreamEvent>, e: StreamEvent, who: Key)
    requires IsToolEvent(e) && Consistent(table, e) && Who(table, e) == who && !Settles(table, before, e, who)
    requires !HasToWait(Names(before), e)
    ensures AccountAfter(Names(before), Waiting(before), AccountOf(table, before, who), e).text ==
            AccountOf(table, before, who).text + if e.eventType.ArgumentsDelta? then e.delta else ""
    ensures !HasSnapshot(e)
  {
    hide Who, KeyWho, IsToolEvent, IsItemEvent, Consistent, Told, Asked, Recognised, FallbackKey, KeyFor, Brought,
         Names, Waiting, AccountOf;
    NamedSo(table, e);
    var text := AccountOf(table, before, who).text;
    assert text + "" == text;
    if Enrols(Names(before), e) { NothingBrought(Waiting(before), e); }
  }

  /** Once nothing waits for an item, what was gathered for it is what was received exactly if what
      waited was added in order. */
  lemma {:induction false} TextIsReceived(table: Table, events: seq<StreamEvent>, who: Key)
    requires AllConsistent(table, events) && !Waits(table, Waiting(events), who)
    ensures AccountOf(table, events, who).text == Received(table, events, who) <==> InOrder(table, events, who)
  {
    hide Who, Consistent, IsToolEvent, AllConsistent, NamesAfter, WaitingAfter, IsItemEvent, Waits, Brought,
         AccountAfter, AccountOf, Received, InOrder, Waiting, Names, Settles;
    if events == [] {
      NothingReceived(table, who);
    } else {
      var before, e := events[..|events| - 1], events[|events| - 1];
      ConsistentSnoc(table, events);
      NamesSnoc(table, before, e);
      AccountSnoc(table, before, e, who);
      ReceivedSnoc(table, before, e, who);
      InOrderSnoc(table, before, e, who);
      if Settles(table, before, e, who) {
        SettledText(table, before, e, who);
      } else if Who(table, e) == who {
        OwnKeepWaiting(table, before, e, who);
        OwnText(table, before, e, who);
        TextIsReceived(table, before, who);
        Unsettled(table, before, e, who);
      } else {
        OthersKeepWaiting(table, Names(before), Waiting(before), e, who);
        TextIsReceived(table, before, who);
      }
    }
  }

  lemma NothingReceived(table: Table, who: Key)
    ensures AccountOf(table, [], who) == EMPTY && Received(table, [], who) == "" && InOrder(table, [], who)
  {
  }

  lemma SettledText(table: Table, before: seq<StreamEvent>, e: StreamEvent, who: Key)
    requires Settles(table, before, e, who) && IsToolEvent(e)
    ensures Who(table, e) == who && !e.eventType.ArgumentsDelta?
    ensures HasSnapshot(e) ==> !e.eventType.ArgumentsDone?
    ensures AccountAfter(Names(before), Waiting(before), AccountOf(table, before, who), e).text ==
            if HasSnapshot(e) then e.item.value.arguments
            else AccountOf(table, before, who).text + Brought(Waiting(before), e)
  {
    hide Who, Told, Names, Waiting, AccountOf, Brought, CatchUp, Recognised;
  }

  /** Adding the same at the end of both keeps them the same, or different. */
  lemma Unsettled(table: Table, before: seq<StreamEvent>, e: StreamEvent, who: Key)
    ensures var text, received := AccountOf(table, before, who).text, Received(table, before, who);
            && (text + e.delta == received + e.delta <==> text == received)
            && text + "" == text && received + "" == received
  {
    hide AccountOf, Received;
    SameEnd(AccountOf(table, before, who).text, Received(table, before, who), e.delta);
  }

  lemma SameEnd(a: string, b: string, c: string)
    ensures a + c == b + c <==> a == b
  {
    if a + c == b + c {
      assert |a| == |b| && a == (a + c)[..|a|] && b == (b + c)[..|b|];
    }
  }

  /** Nothing is settled for an item that was never announced. */
  lemma {:induction false} UnopenedIsInOrder(table: Table, events: seq<StreamEvent>, who: Key)
    requires !Opened(table, events, who)
    ensures InOrder(table, events, who)
  {
    hide Who, Opened, Told, Waiting, Names, Received, AccountOf, Brought, Recognised;
    if events != [] {
      var before, e := events[..|events| - 1], events[|events| - 1];
      assert events == before + [e];
      OpenedSnoc(table, before, e, who);
      UnopenedIsInOrder(table, before, who);
      ItemIsNoDelta(e);
    }
  }

  lemma ItemIsNoDelta(e: StreamEvent)
    ensures IsItemEvent(e) ==> !e.eventType.ArgumentsDelta?
  {
  }

  lemma GivenIsReceived(table: Table, events: seq<StreamEvent>, who: Key)
    requires AllConsistent(table, events) && Traceable(table, events) && SnapshotsGrow(table, events)
    ensures Given(table, events, who) == Received(table, events, who) <==> InOrder(table, events, who)
  {
    hide AllConsistent, Opened, Received, AccountOf, InOrder, KeepsTrack, Waiting, SnapshotsGrow, KeyWho;
    if Opened(table, events, who) {
      AllIsSent(table, events, who);
      assert !Waits(table, Waiting(events), who);
      TextIsReceived(table, events, who);
    } else {
      UnopenedIsInOrder(table, events, who);
    }
  }

  /** In every error-free stream whose names keep its items together and whose snapshots extend what
      was gathered, each call is sent exactly the arguments received for its item if and only if what
      had to wait for the item was added in order. */
  lemma ArgumentsComeInOrder(table: Table, events: seq<StreamEvent>, includeUsage: bool) returns (owners: seq<Key>)
    requires Run(events, includeUsage).Some? && TerminalLast(events)
    requires AllConsistent(table, ToolEvents(events)) && Traceable(table, ToolEvents(events))
    requires SnapshotsGrow(table, ToolEvents(events))
    ensures |owners| == Seen(Output(events, includeUsage)) && Distinct(owners)
    ensures forall who :: who in owners <==> Mentioned(table, ToolEvents(events), who)
    ensures forall t :: 0 <= t < |owners| ==>
              (Emitted(Output(events, includeUsage), t) == Received(table, ToolEvents(events), owners[t])
               <==> InOrder(table, ToolEvents(events), owners[t]))
  {
    hide Run, AllConsistent, Traceable, SnapshotsGrow, TerminalLast, ToolEvents, Output, Seen, Emitted, Received,
         InOrder, Given, Mentioned, Distinct;
    owners := ItemsAreSentOnce(table, events, includeUsage);
    forall t | 0 <= t < |owners|
      ensures Emitted(Output(events, includeUsage), t) == Received(table, ToolEvents(events), owners[t])
              <==> InOrder(table, ToolEvents(events), owners[t])
    {
      GivenIsReceived(table, ToolEvents(events), owners[t]);
    }
  }

  // ---- items that are announced once, by all their names --------------------------------------------

  /** The deltas of an item that carry an output index, and those that do not. */
  function Indexed(table: Table, events: seq<StreamEvent>, who: Key): string {
    if events == [] then "" else
      var e := events[|events| - 1];
      Indexed(table, events[..|events| - 1], who) +
      if e.eventType.ArgumentsDelta? && Who(table, e) == who && e.outputIndex.Some? then e.delta else ""
  }

  function Alone(table: Table, events: seq<StreamEvent>, who: Key): string {
    if events == [] then "" else
      var e := events[|events| - 1];
      Alone(table, events[..|events| - 1], who) +
      if e.eventType.ArgumentsDelta? && Who(table, e) == who && e.outputIndex.None? then e.delta else ""
  }

  /** The deltas of the item go by names that this event gives. */
  predicate NamesAll(table: Table, events: seq<StreamEvent>, announcing: StreamEvent, who: Key) {
    forall j :: 0 <= j < |events| && events[j].eventType.ArgumentsDelta? && Who(table, events[j]) == who ==>
      FallbackKey(events[j]).Some? && FallbackKey(events[j]).value in Told(announcing)
  }

  lemma NamesAllSnoc(table: Table, events: seq<StreamEvent>, announcing: StreamEvent, who: Key)
    requires events != [] && NamesAll(table, events, announcing, who)
    ensures NamesAll(table, events[..|events| - 1], announcing, who)
    ensures var e := events[|events| - 1];
            e.eventType.ArgumentsDelta? && Who(table, e) == who ==>
              FallbackKey(e).Some? && FallbackKey(e).value in Told(announcing)
  {
    hide Who, FallbackKey, Told;
  }

  /** What waits for an item before it is announced: its deltas with an index under that, the others
      under its item id, and nothing under another name. */
  predicate WaitsSo(table: Table, waiting: map<Key, string>, announcing: StreamEvent, who: Key, indexed: string,
                    alone: string)
  {
    && (forall name :: name in waiting && KeyWho(table, name) == who ==> name in Told(announcing))
    && Brought(waiting, announcing) == indexed + alone
    && (if announcing.outputIndex.Some? then TextAt(waiting, OutputKey(announcing.outputIndex.value)) else "")
       == indexed
  }

  lemma {:induction false} BroughtInTwoParts(table: Table, events: seq<StreamEvent>, announcing: StreamEvent, who: Key)
    requires AllConsistent(table, events) && !Opened(table, events, who) && NamesAll(table, events, announcing, who)
    requires IsToolEvent(announcing) && Consistent(table, announcing) && Who(table, announcing) == who
    ensures WaitsSo(table, Waiting(events), announcing, who, Indexed(table, events, who), Alone(table, events, who))
  {
    hide Who, Consistent, IsToolEvent, AllConsistent, Recognised, Told, NamesAfter, WaitingAfter, IsItemEvent, Opened,
         WaitsSo, KeyWho, NamesAll, FallbackKey;
    if events == [] {
      NothingWaits(table, announcing, who);
    } else {
      var before, e := events[..|events| - 1], events[|events| - 1];
      ConsistentSnoc(table, events);
      OwnersAreOpened(table, before);
      OpenedSnoc(table, before, e, who);
      NamesSnoc(table, before, e);
      NamesAllSnoc(table, events, announcing, who);
      NamedSo(table, e);
      BroughtInTwoParts(table, before, announcing, who);
      var indexed, alone := Indexed(table, before, who), Alone(table, before, who);
      assert indexed + "" == indexed && alone + "" == alone;
      if Who(table, e) == who {
        if Recognised(Names(before), e) { RecognisedOwned(table, Names(before), Owners(table, before), e); }
        WaitsMore(table, Names(before), Waiting(before), announcing, e, who, indexed, alone);
      } else {
        WaitsStill(table, Names(before), Waiting(before), announcing, e, who, indexed, alone);
      }
    }
  }

  lemma NothingWaits(table: Table, announcing: StreamEvent, who: Key)
    ensures WaitsSo(table, Waiting([]), announcing, who, Indexed(table, [], who), Alone(table, [], who))
  {
    hide ItemIdOf, Told;
  }

  lemma WaitsMore(table: Table, names: set<Key>, waiting: map<Key, string>, announcing: StreamEvent, e: StreamEvent,
                  who: Key, indexed: string, alone: string)
    requires WaitsSo(table, waiting, announcing, who, indexed, alone)
    requires IsToolEvent(e) && Consistent(table, e) && Who(table, e) == who && e.eventType.ArgumentsDelta?
    requires !Recognised(names, e) && FallbackKey(e).Some? && FallbackKey(e).value in Told(announcing)
    ensures WaitsSo(table, WaitingAfter(names, waiting, e), announcing, who,
                    indexed + (if e.outputIndex.Some? then e.delta else ""),
                    alone + if e.outputIndex.None? then e.delta else "")
  {
    hide Who, KeyWho, IsToolEvent, Consistent, Asked, Recognised, ItemIdOf, CallIdOf, IsItemEvent, KeyFor, Text.Trim;
    NamedSo(table, e);
    assert indexed + "" == indexed && alone + "" == alone;
    var name := FallbackKey(e).value;
    var waiting' := WaitingAfter(names, waiting, e);
    var at := if ItemIdOf(announcing) != "" then TextAt(waiting, ItemKey(ItemIdOf(announcing))) else "";
    assert indexed + at == indexed + alone && at == alone by { assert at == (indexed + at)[|indexed|..]; }
    if e.delta == "" {
      assert waiting' == waiting;
    } else if e.outputIndex.Some? {
      assert announcing.outputIndex == e.outputIndex && name == OutputKey(e.outputIndex.value);
    } else {
      assert name == ItemKey(ItemIdOf(announcing)) && TextAt(waiting', name) == at + e.delta;
    }
  }

  lemma WaitsStill(table: Table, names: set<Key>, waiting: map<Key, string>, announcing: StreamEvent, e: StreamEvent,
                   who: Key, indexed: string, alone: string)
    requires WaitsSo(table, waiting, announcing, who, indexed, alone)
    requires IsToolEvent(e) && Consistent(table, e) && Who(table, e) != who
    requires IsToolEvent(announcing) && Consistent(table, announcing) && Who(table, announcing) == who
    ensures WaitsSo(table, WaitingAfter(names, waiting, e), announcing, who, indexed, alone)
  {
    hide Who, KeyWho, IsToolEvent, Consistent, Asked, Recognised, ItemIdOf, IsItemEvent, KeyFor, FallbackKey, Told;
    var waiting' := WaitingAfter(names, waiting, e);
    NamedSo(table, e);
    forall n | KeyWho(table, n) == who
      ensures TextAt(waiting', n) == TextAt(waiting, n) && (n in waiting' <==> n in waiting)
    {
      if n in Told(e) { SameWho(table, e, n); }
      if !IsItemEvent(e) { SameWho(table, e, FallbackKey(e).value); }
    }
    KeyIsTold(announcing);
    if announcing.outputIndex.Some? { SameWho(table, announcing, OutputKey(announcing.outputIndex.value)); }
    if ItemIdOf(announcing) != "" { SameWho(table, announcing, ItemKey(ItemIdOf(announcing))); }
  }

  /** The item's first event that is no delta is an item, and gives it every name that deltas use. */
  predicate Announces(table: Table, events: seq<StreamEvent>, k: int, who: Key) {
    && 0 <= k < |events| && IsItemEvent(events[k]) && Who(table, events[k]) == who
    && !Opened(table, events[..k], who) && NamesAll(table, events, events[k], who)
  }

  /** An item carries all arguments, at or after this event. */
  predicate Repaired(table: Table, events: seq<StreamEvent>, k: int, who: Key) {
    exists j :: k <= j < |events| && 0 <= j && Who(table, events[j]) == who && HasSnapshot(events[j])
  }

  lemma AnnouncesBefore(table: Table, events: seq<StreamEvent>, k: nat, who: Key)
    requires Announces(table, events, k, who) && k < |events| - 1
    ensures Announces(table, events[..|events| - 1], k, who)
    ensures Repaired(table, events, k, who)
            <==> Repaired(table, events[..|events| - 1], k, who)
                 || (Who(table, events[|events| - 1]) == who && HasSnapshot(events[|events| - 1]))
  {
    hide Who, Opened, HasSnapshot, IsItemEvent, Told, FallbackKey;
    var before, e := events[..|events| - 1], events[|events| - 1];
    assert before[..k] == events[..k];
    if j :| k <= j < |before| && Who(table, before[j]) == who && HasSnapshot(before[j]) {
      assert Who(table, events[j]) == who && HasSnapshot(events[j]);
    }
    if j :| k <= j < |events| && Who(table, events[j]) == who && HasSnapshot(events[j]) {
      if j < |before| { assert Who(table, before[j]) == who && HasSnapshot(before[j]); }
    }
  }

  /** After the announcement nothing waits for the item. */
  lemma {:induction false} AnnouncedDoesNotWait(table: Table, events: seq<StreamEvent>, k: nat, who: Key)
    requires AllConsistent(table, events) && Announces(table, events, k, who)
    ensures Told(events[k]) <= Names(events) && !Waits(table, Waiting(events), who)
  {
    hide Who, Consistent, IsToolEvent, AllConsistent, Told, Waits, WaitsSo, NamesAll, Opened, Names, Waiting;
    var before, e := events[..|events| - 1], events[|events| - 1];
    ConsistentSnoc(table, events);
    NamesSnoc(table, before, e);
    if k == |events| - 1 {
      NamesAllSnoc(table, events, e, who);
      BroughtInTwoParts(table, before, e, who);
      TakesAll(table, Waiting(before), e, who, Indexed(table, before, who), Alone(table, before, who));
    } else {
      AnnouncesBefore(table, events, k, who);
      AnnouncedDoesNotWait(table, before, k, who);
      NamesAllSnoc(table, events, events[k], who);
      if Who(table, e) == who {
        KnownDoesNotWait(table, Names(before), Waiting(before), e, events[k], who);
      } else {
        OthersKeepWaiting(table, Names(before), Waiting(before), e, who);
      }
    }
  }

  lemma TakesAll(table: Table, waiting: map<Key, string>, announcing: StreamEvent, who: Key, indexed: string,
                 alone: string)
    requires WaitsSo(table, waiting, announcing, who, indexed, alone)
    ensures !Waits(table, waiting - Told(announcing), who)
  {
    hide KeyWho, Told, Brought;
  }

  lemma KnownDoesNotWait(table: Table, names: set<Key>, waiting: map<Key, string>, e: StreamEvent,
                         announcing: StreamEvent, who: Key)
    requires IsToolEvent(e) && Consistent(table, e) && Told(announcing) <= names && !Waits(table, waiting, who)
    requires e.eventType.ArgumentsDelta? ==> FallbackKey(e).Some? && FallbackKey(e).value in Told(announcing)
    ensures !Waits(table, WaitingAfter(names, waiting, e), who)
  {
    hide KeyWho, Told, IsToolEvent, IsItemEvent, Consistent, Asked, FallbackKey;
    NamedSo(table, e);
    if e.eventType.ArgumentsDelta? { assert Recognised(names, e); }
  }

  /** Then only an item that carries all arguments settles anything. */
  lemma OnlySnapshotsSettle(table: Table, before: seq<StreamEvent>, e: StreamEvent, who: Key)
    requires Consistent(table, e) && !Waits(table, Waiting(before), who)
    ensures Settles(table, before, e, who) <==> Who(table, e) == who && HasSnapshot(e)
  {
    hide Who, KeyWho, Consistent, Told, Asked, Recognised, Names, Waiting;
    if name :| name in Told(e) && name in Waiting(before) { SameWho(table, e, name); }
  }

  /** The announcement itself. */
  lemma AnnouncementIsInOrder(table: Table, before: seq<StreamEvent>, e: StreamEvent, who: Key)
    requires AllConsistent(table, before) && IsToolEvent(e) && Consistent(table, e) && IsItemEvent(e)
    requires Who(table, e) == who && !Opened(table, before, who) && NamesAll(table, before, e, who)
    ensures InOrder(table, before + [e], who)
            <==> HasSnapshot(e)
                 || Received(table, before, who) == Indexed(table, before, who) + Alone(table, before, who)
  {
    hide Who, Consistent, AllConsistent, IsToolEvent, Told, WaitsSo, Opened, Received, InOrder, Waiting, Names,
         NamesAll, Indexed, Alone, HasSnapshot;
    BroughtInTwoParts(table, before, e, who);
    InOrderSnoc(table, before, e, who);
    OwnersAreOpened(table, before);
    UnopenedIsEmpty(table, before, who);
    UnopenedIsInOrder(table, before, who);
    var brought := Brought(Waiting(before), e);
    assert EMPTY.text + brought == brought;
    BringsParts(table, Waiting(before), e, who, Indexed(table, before, who), Alone(table, before, who));
    if !Settles(table, before, e, who) { TextIsReceived(table, before, who); }
  }

  lemma BringsParts(table: Table, waiting: map<Key, string>, e: StreamEvent, who: Key, indexed: string, alone: string)
    requires WaitsSo(table, waiting, e, who, indexed, alone)
    ensures Brought(waiting, e) == indexed + alone
    ensures (forall name :: name in Told(e) ==> name !in waiting) ==>
              !Waits(table, waiting, who) && indexed + alone == ""
  {
    hide KeyWho, Told, Brought;
    if forall name :: name in Told(e) ==> name !in waiting { NothingBrought(waiting, e); }
  }

  /** For an item that is announced once, by all the names its deltas use: its arguments are in order
      if and only if an item carried them all from then on, or before the announcement those with an
      index came before those without. */
  lemma {:induction false} AnnouncedIsInOrder(table: Table, events: seq<StreamEvent>, k: nat, who: Key)
    requires AllConsistent(table, events) && Announces(table, events, k, who)
    ensures InOrder(table, events, who) <==>
            Repaired(table, events, k, who)
            || Received(table, events[..k], who) == Indexed(table, events[..k], who) + Alone(table, events[..k], who)
  {
    hide Who, Consistent, IsToolEvent, AllConsistent, Told, Opened, Received, InOrder, Waiting, Names, Waits,
         Indexed, Alone, NamesAll, Repaired, Settles, HasSnapshot;
    var before, e := events[..|events| - 1], events[|events| - 1];
    ConsistentSnoc(table, events);
    if k == |events| - 1 {
      NamesAllSnoc(table, events, e, who);
      AnnouncementIsInOrder(table, before, e, who);
      RepairedLast(table, events, who);
    } else {
      AnnouncesBefore(table, events, k, who);
      assert before[..k] == events[..k];
      AnnouncedIsInOrder(table, before, k, who);
      AnnouncedDoesNotWait(table, before, k, who);
      OnlySnapshotsSettle(table, before, e, who);
      InOrderSnoc(table, before, e, who);
    }
  }

  lemma RepairedLast(table: Table, events: seq<StreamEvent>, who: Key)
    requires events != [] && Who(table, events[|events| - 1]) == who
    ensures Repaired(table, events, |events| - 1, who) <==> HasSnapshot(events[|events| - 1])
  {
    hide Who, HasSnapshot;
  }

  lemma AnnouncedIsMentioned(table: Table, events: seq<StreamEvent>, k: nat, who: Key)
    requires Announces(table, events, k, who)
    ensures Mentioned(table, events, who)
  {
    hide Who, Opened, NamesAll;
    ItemIsNoDelta(events[k]);
    assert Counts(events[k]);
  }

  /** So, in the output: there is one call for such an item, and it is sent exactly the arguments
      received for the item if and only if an item carried them all from the announcement on, or before
      it those with an index came before those without. */
  lemma AnnouncedArgumentsArrive(table: Table, events: seq<StreamEvent>, includeUsage: bool, k: nat, who: Key)
    returns (owners: seq<Key>, t: nat)
    requires Run(events, includeUsage).Some? && TerminalLast(events)
    requires AllConsistent(table, ToolEvents(events)) && Traceable(table, ToolEvents(events))
    requires SnapshotsGrow(table, ToolEvents(events)) && Announces(table, ToolEvents(events), k, who)
    ensures |owners| == Seen(Output(events, includeUsage)) && Distinct(owners)
    ensures forall w :: w in owners <==> Mentioned(table, ToolEvents(events), w)
    ensures t < |owners| && owners[t] == who
    ensures var tools := ToolEvents(events);
            Emitted(Output(events, includeUsage), t) == Received(table, tools, who) <==>
            Repaired(table, tools, k, who)
            || Received(table, tools[..k], who) == Indexed(table, tools[..k], who) + Alone(table, tools[..k], who)
  {
    hide Run, AllConsistent, Traceable, SnapshotsGrow, TerminalLast, ToolEvents, Output, Seen, Emitted, Received,
         InOrder, Mentioned, Distinct, Repaired, Indexed, Alone, Announces;
    owners := ArgumentsComeInOrder(table, events, includeUsage);
    AnnouncedIsMentioned(table, ToolEvents(events), k, who);
    t :| 0 <= t < |owners| && owners[t] == who;
    AnnouncesAt(table, ToolEvents(events), k, who);
    AnnouncedIsInOrder(table, ToolEvents(events), k, who);
  }

  lemma AnnouncesAt(table: Table, events: seq<StreamEvent>, k: nat, who: Key)
    requires Announces(table, events, k, who)
    ensures k < |events|
  {
    hide Who, Opened, NamesAll;
  }

  // ---- two inputs ---------------------------------------------------------------------------------

  /** Arguments that carry the item id alone. */
  predicate IdOnly(a: StreamEvent, item: StreamEvent) {
    && a.eventType.ArgumentsDelta? && a.delta != "" && a.outputIndex.None? && a.item.None?
    && Text.Trim(a.itemId) == ItemIdOf(item) != ""
  }

  /** Arguments that carry the output index alone. */
  predicate IndexOnly(b: StreamEvent, item: StreamEvent) {
    && b.eventType.ArgumentsDelta? && b.delta != "" && b.outputIndex == item.outputIndex && b.outputIndex.Some?
    && b.item.None? && Text.Trim(b.itemId) == ""
  }

  predicate BareItem(item: StreamEvent) { IsItemEvent(item) && item.outputIndex.Some? && !HasSnapshot(item) }

  lemma DeltaIsKept(waiting: map<Key, string>, e: StreamEvent, name: Key)
    requires e.eventType.ArgumentsDelta? && e.delta != "" && FallbackKey(e) == Some(name)
    ensures NamesAfter({}, e) == {} && WaitingAfter({}, waiting, e) == waiting[name := TextAt(waiting, name) + e.delta]
  {
    hide Asked, FallbackKey;
    ItemIsNoDelta(e);
  }

  lemma ItemIsTraceable(table: Table, before: seq<StreamEvent>, item: StreamEvent)
    requires BareItem(item) && forall k :: 0 <= k < |before| ==> before[k].eventType.ArgumentsDelta?
    requires forall name :: name in Waiting(before) ==> name in Told(item)
    ensures Traceable(table, before + [item])
  {
    hide Who, Told, Waiting, Names, Recognised, KeyWho, ItemIdOf, HasSnapshot, IsToolEvent;
    var events := before + [item];
    assert events[..|before|] == before && events[|before|] == item;
    NamesSnoc(table, before, item);
    forall k | 0 <= k < |events| ensures KeepsTrack(table, events[..k], events[k]) {
      if k < |before| { assert events[k] == before[k]; }
    }
    assert Waiting(events) == map[];
  }

  /** A stream that ends with its one item. */
  lemma ItemTakesAll(table: Table, before: seq<StreamEvent>, item: StreamEvent)
    requires AllConsistent(table, before + [item]) && BareItem(item) && Names(before) == {}
    requires forall k :: 0 <= k < |before| ==> before[k].eventType.ArgumentsDelta?
    requires forall name :: name in Waiting(before) ==> name in Told(item)
    ensures Traceable(table, before + [item])
    ensures Given(table, before + [item], Who(table, item)) == Brought(Waiting(before), item)
  {
    hide Who, AllConsistent, IsToolEvent, Told, Brought, AccountOf, Waiting, Names, Recognised, Traceable, CatchUp,
         Opened, Received, HasSnapshot;
    ItemIsTraceable(table, before, item);
    ItemIsNoDelta(item);
    OpenedSnoc(table, before, item, Who(table, item));
    AccountSnoc(table, before, item, Who(table, item));
    DeltasOnly(table, before, Who(table, item));
    var brought := Brought(Waiting(before), item);
    assert "" + brought == brought;
    CatchesUp("", brought);
  }

  lemma {:induction false} DeltasOnly(table: Table, events: seq<StreamEvent>, who: Key)
    requires Names(events) == {} && forall k :: 0 <= k < |events| ==> events[k].eventType.ArgumentsDelta?
    ensures AccountOf(table, events, who) == EMPTY
  {
    hide Who;
    if events != [] {
      var before, e := events[..|events| - 1], events[|events| - 1];
      assert forall k :: 0 <= k < |before| ==> before[k] == events[k];
      ItemIsNoDelta(e);
      DeltasOnly(table, before, who);
    }
  }

  lemma ConsistentAt(table: Table, events: seq<StreamEvent>, k: nat)
    requires AllConsistent(table, events) && k < |events|
    ensures IsToolEvent(events[k]) && Consistent(table, events[k])
  {
    hide IsToolEvent, Consistent;
  }

  lemma OneWaits(table: Table, a: StreamEvent, item: StreamEvent)
    requires IdOnly(a, item)
    ensures Names([a]) == {} && Waiting([a]) == map[ItemKey(ItemIdOf(item)) := a.delta]
    ensures ItemKey(ItemIdOf(item)) in Told(item) && Brought(Waiting([a]), item) == a.delta
  {
    hide Told, Text.Trim, ItemIdOf, WaitingAfter, NamesAfter;
    assert [] + [a] == [a] && "" + a.delta == a.delta;
    DeltaIsKept(map[], a, ItemKey(ItemIdOf(item)));
    NamesSnoc(table, [], a);
    KeyIsTold(item);
  }

  lemma TwoWait(table: Table, a: StreamEvent, b: StreamEvent, item: StreamEvent)
    requires IdOnly(a, item) && IndexOnly(b, item)
    ensures var id, index := ItemKey(ItemIdOf(item)), OutputKey(item.outputIndex.value);
            && Names([a, b]) == {} && Waiting([a, b]) == map[id := a.delta][index := b.delta]
            && id in Told(item) && index in Told(item)
    ensures Brought(Waiting([a, b]), item) == b.delta + a.delta
  {
    hide Told, Text.Trim, ItemIdOf, WaitingAfter, NamesAfter, Names, Waiting;
    assert [a] + [b] == [a, b] && "" + b.delta == b.delta;
    OneWaits(table, a, item);
    DeltaIsKept(Waiting([a]), b, OutputKey(item.outputIndex.value));
    NamesSnoc(table, [a], b);
    KeyIsTold(item);
  }

  lemma ItemOnlyIsGiven(table: Table, a: StreamEvent, item: StreamEvent)
    requires IdOnly(a, item) && BareItem(item) && AllConsistent(table, [a, item])
    ensures Traceable(table, [a, item])
    ensures Given(table, [a, item], Who(table, item)) == a.delta == Received(table, [a, item], Who(table, item))
  {
    hide Who, Consistent, AllConsistent, Told, Text.Trim, ItemIdOf, WaitingAfter, NamesAfter, Received, Names, Waiting,
         Brought, Traceable, Given, HasSnapshot, IsToolEvent;
    assert [a] + [item] == [a, item] && [] + [a] == [a];
    assert "" + a.delta == a.delta && a.delta + "" == a.delta;
    OneWaits(table, a, item);
    ItemTakesAll(table, [a], item);
    ConsistentAt(table, [a, item], 0);
    ConsistentAt(table, [a, item], 1);
    HeardInTurn(table, [], a, item);
    HeardInTurn(table, [a], item, item);
  }

  lemma AsideIsGiven(table: Table, a: StreamEvent, b: StreamEvent, item: StreamEvent)
    requires IdOnly(a, item) && IndexOnly(b, item) && BareItem(item) && AllConsistent(table, [a, b, item])
    ensures Traceable(table, [a, b, item])
    ensures Given(table, [a, b, item], Who(table, item)) == b.delta + a.delta
    ensures Received(table, [a, b, item], Who(table, item)) == a.delta + b.delta
  {
    hide Who, Consistent, AllConsistent, Told, Text.Trim, ItemIdOf, WaitingAfter, NamesAfter, Received, Names, Waiting,
         Brought, Traceable, Given, HasSnapshot, IsToolEvent;
    assert [a, b] + [item] == [a, b, item] && [a] + [b] == [a, b] && [] + [a] == [a];
    assert "" + a.delta == a.delta && (a.delta + b.delta) + "" == a.delta + b.delta;
    TwoWait(table, a, b, item);
    ItemTakesAll(table, [a, b], item);
    ConsistentAt(table, [a, b, item], 0);
    ConsistentAt(table, [a, b, item], 1);
    ConsistentAt(table, [a, b, item], 2);
    HeardInTurn(table, [], a, item);
    HeardInTurn(table, [a], b, item);
    HeardInTurn(table, [a, b], item, item);
  }

  /** One more event about the item, that has no snapshot. */
  lemma HeardInTurn(table: Table, events: seq<StreamEvent>, e: StreamEvent, item: StreamEvent)
    requires BareItem(item) && Consistent(table, item) && Consistent(table, e) && IsToolEvent(e)
    requires e == item || IdOnly(e, item) || IndexOnly(e, item)
    ensures Received(table, events + [e], Who(table, item)) ==
            Received(table, events, Who(table, item)) + if e == item then "" else e.delta
    ensures Received(table, [], Who(table, item)) == ""
  {
    hide Consistent, Text.Trim, ItemIdOf, Received, KeyWho, Told, Who, Asked;
    var who := Who(table, item);
    ReceivedSnoc(table, events, e, who);
    NothingReceived(table, who);
    ItemIsNoDelta(item);
    var received := Received(table, events, who);
    assert received + "" == received;
    if e != item {
      SameItem(table, e, item);
    }
  }

  lemma SameItem(table: Table, e: StreamEvent, item: StreamEvent)
    requires Consistent(table, item) && Consistent(table, e) && (IdOnly(e, item) || IndexOnly(e, item))
    ensures Who(table, e) == Who(table, item)
  {
    hide Consistent, Text.Trim, ItemIdOf, KeyWho, IsItemEvent, CallIdOf;
    ItemIsNoDelta(e);
    KeyIsTold(item);
    if IdOnly(e, item) {
      assert ItemKey(ItemIdOf(item)) in Asked(e);
      SameWho(table, e, ItemKey(ItemIdOf(item)));
      SameWho(table, item, ItemKey(ItemIdOf(item)));
    } else {
      SameWho(table, e, OutputKey(item.outputIndex.value));
      SameWho(table, item, OutputKey(item.outputIndex.value));
    }
  }

  /** The assignment these events speak of. */
  function TableOf(item: StreamEvent): Table
    requires BareItem(item)
  {
    var index := item.outputIndex.value;
    Table(map[ItemIdOf(item) := index], map[CallIdOf(item) := OutputKey(index)])
  }

  lemma ShapesAreConsistent(e: StreamEvent, item: StreamEvent)
    requires BareItem(item) && (e == item || IdOnly(e, item) || IndexOnly(e, item))
    ensures IsToolEvent(e) && Consistent(TableOf(item), e)
  {
    hide Text.Trim;
  }

  predicate AllTools(events: seq<StreamEvent>) { forall k :: 0 <= k < |events| ==> IsToolEvent(events[k]) }

  lemma ToolsBefore(events: seq<StreamEvent>)
    requires events != [] && AllTools(events)
    ensures AllTools(events[..|events| - 1]) && IsToolEvent(events[|events| - 1])
  {
    hide IsToolEvent;
  }

  /** A stream of tool events alone. */
  lemma {:induction false} ToolsRun(events: seq<StreamEvent>, includeUsage: bool)
    requires AllTools(events)
    ensures Run(events, includeUsage).Some?
  {
    hide AllTools, IsToolEvent, ToolStep, ToolsSaid, Step, IsTerminal, TerminalResponse, Terminal;
    if events != [] {
      var before, e := events[..|events| - 1], events[|events| - 1];
      ToolsBefore(events);
      ToolsRun(before, includeUsage);
      StepIs(Run(before, includeUsage).value.0, e, includeUsage);
    }
  }

  lemma {:induction false} ToolsOnly(events: seq<StreamEvent>)
    requires AllTools(events)
    ensures ToolEvents(events) == events
  {
    hide AllTools, IsToolEvent, IsTerminal, TerminalResponse, OutputEvents;
    if events != [] {
      ToolsBefore(events);
      ToolsOnly(events[..|events| - 1]);
    }
  }

  lemma ToolsDoNotEnd(events: seq<StreamEvent>)
    requires AllTools(events)
    ensures TerminalLast(events)
  {
    hide IsToolEvent, IsTerminal;
    forall k | 0 <= k < |events| ensures !IsTerminal(events[k]) { TerminalIsNoTool(events[k]); }
  }

  /** A stream about one item comes out as one call. */
  lemma OneCall(table: Table, events: seq<StreamEvent>, includeUsage: bool, who: Key)
    requires AllConsistent(table, events) && Traceable(table, events) && events != []
    requires forall k :: 0 <= k < |events| ==> Who(table, events[k]) == who && Counts(events[k])
    ensures Run(events, includeUsage).Some? && Seen(Output(events, includeUsage)) == 1
    ensures Emitted(Output(events, includeUsage), 0) == Given(table, events, who)
  {
    hide Run, Consistent, Traceable, ToolEvents, Output, Seen, Emitted, Given, IsToolEvent, Who, Counts, TerminalLast;
    ToolsRun(events, includeUsage);
    ToolsOnly(events);
    ToolsDoNotEnd(events);
    var owners := ItemsAreSentOnce(table, events, includeUsage);
    forall w ensures w in owners <==> w == who {
      assert Mentioned(table, events, w) <==> w == who by {
        assert Counts(events[0]) && Who(table, events[0]) == who;
      }
    }
    OnlyOne(owners, who);
  }

  lemma OnlyOne(owners: seq<Key>, who: Key)
    requires Distinct(owners) && forall w :: w in owners <==> w == who
    ensures owners == [who]
  {
    hide Distinct;
    DistinctCounts(owners);
    assert Elements(owners) == {who};
    assert owners[0] in owners;
  }

  /** Arguments that come before their item under its id alone reach its call. */
  lemma ItemOnlyArgumentsArrive(a: StreamEvent, item: StreamEvent, includeUsage: bool)
    requires IdOnly(a, item) && BareItem(item)
    ensures Run([a, item], includeUsage).Some? && Seen(Output([a, item], includeUsage)) == 1
    ensures Emitted(Output([a, item], includeUsage), 0) == a.delta
  {
    hide Who, Consistent, Run, Output, Seen, Emitted, IsToolEvent, Traceable, Given, BareItem, IdOnly, TableOf;
    var table, events := TableOf(item), [a, item];
    ShapesAreConsistent(a, item);
    ShapesAreConsistent(item, item);
    SameItem(table, a, item);
    ItemOnlyIsGiven(table, a, item);
    ShapesCount(a, item);
    ShapesCount(item, item);
    OneCall(table, events, includeUsage, Who(table, item));
  }

  /** Arguments under the id alone and then under the output index alone change places in the call. */
  lemma AsideOrderIsLost(a: StreamEvent, b: StreamEvent, item: StreamEvent, includeUsage: bool)
    requires IdOnly(a, item) && IndexOnly(b, item) && BareItem(item)
    ensures Run([a, b, item], includeUsage).Some? && Seen(Output([a, b, item], includeUsage)) == 1
    ensures Emitted(Output([a, b, item], includeUsage), 0) == b.delta + a.delta
  {
    hide Who, Consistent, Run, Output, Seen, Emitted, IsToolEvent, Traceable, Given, BareItem, IdOnly, IndexOnly,
         TableOf;
    var table, events := TableOf(item), [a, b, item];
    ShapesAreConsistent(a, item);
    ShapesAreConsistent(b, item);
    ShapesAreConsistent(item, item);
    SameItem(table, a, item);
    SameItem(table, b, item);
    AsideIsGiven(table, a, b, item);
    ShapesCount(a, item);
    ShapesCount(b, item);
    ShapesCount(item, item);
    OneCall(table, events, includeUsage, Who(table, item));
  }

  lemma ShapesCount(e: StreamEvent, item: StreamEvent)
    requires BareItem(item) && (e == item || IdOnly(e, item) || IndexOnly(e, item))
    ensures Counts(e)
  {
    ItemIsNoDelta(item);
  }
}
