/** Function calls of a Gemini history that may carry no ids: every call gets an id, and every
    result the id of the call it answers. */
module GeminiHistory {
  import opened Basics
  import Text

  datatype Call = Call(id: string, name: string)

  datatype Response = Response(id: string, name: string)

  /** A content part. One that has text, inline data or file data is rendered as that; its call or
      response is not looked at, though its explicit ids are still set aside. */
  datatype Part = Part(isMedia: bool, call: Option<Call>, response: Option<Response>)

  datatype Pending = Pending(id: string, name: string)

  datatype History = History(reserved: set<string>, pending: seq<Pending>, nextID: nat)

  /** The function of a call or a response, the id it left with, and whether that was made up. */
  datatype Issued = Issued(isCall: bool, name: string, id: string, made: bool)

  // ---- made-up ids ------------------------------------------------------------------------

  function Name(n: nat): string { "call_" + Text.Decimal(n) }

  lemma NameInjective(m: nat, n: nat)
    requires Name(m) == Name(n)
    ensures m == n
  {
    assert Name(m)[5..] == Text.Decimal(m) && Name(n)[5..] == Text.Decimal(n);
    Text.ParseDecimalInvertsDecimal(m);
    Text.ParseDecimalInvertsDecimal(n);
  }

  ghost predicate NamedFrom(s: string, n: nat) { exists m: nat :: n <= m && s == Name(m) }

  /** The ids in the way of the search from n on. */
  ghost function InTheWay(reserved: set<string>, n: nat): set<string> {
    set s | s in reserved && NamedFrom(s, n)
  }

  lemma FewerInTheWay(reserved: set<string>, n: nat)
    requires Name(n) in reserved
    ensures InTheWay(reserved, n + 1) < InTheWay(reserved, n)
  {
    assert Name(n) in InTheWay(reserved, n);
    if Name(n) in InTheWay(reserved, n + 1) {
      var m: nat :| n + 1 <= m && Name(n) == Name(m);
      NameInjective(n, m);
    }
    forall s | s in InTheWay(reserved, n + 1) ensures s in InTheWay(reserved, n) {
      var m: nat :| n + 1 <= m && s == Name(m);
      assert NamedFrom(s, n);
    }
  }

  /** The least free number from n on: the search ends because the set is finite. */
  function FreeNumber(reserved: set<string>, n: nat): (m: nat)
    ensures n <= m && Name(m) !in reserved
    ensures forall k: nat :: n <= k < m ==> Name(k) in reserved
    decreases InTheWay(reserved, n)
  {
    if Name(n) !in reserved then n
    else
      FewerInTheWay(reserved, n);
      FreeNumber(reserved, n + 1)
  }

  function FallbackID(h: History): (string, History) {
    var n := FreeNumber(h.reserved, h.nextID);
    (Name(n), h.(reserved := h.reserved + {Name(n)}, nextID := n + 1))
  }

  // ---- one part ---------------------------------------------------------------------------

  function Remove<T>(s: seq<T>, i: nat): seq<T>
    requires i < |s|
  {
    s[..i] + s[i + 1..]
  }

  predicate Answers(name: string, p: Pending) { name == "" || p.name == name }

  /** The first pending call that a response of this name may answer. */
  function FirstAnswered(pending: seq<Pending>, name: string): (i: nat)
    ensures i <= |pending|
    ensures i < |pending| ==> Answers(name, pending[i])
    ensures forall j :: 0 <= j < i ==> !Answers(name, pending[j])
  {
    if pending == [] || Answers(name, pending[0]) then 0 else 1 + FirstAnswered(pending[1..], name)
  }

  function FirstWithID(pending: seq<Pending>, id: string): (i: nat)
    ensures i <= |pending|
    ensures i < |pending| ==> pending[i].id == id
    ensures forall j :: 0 <= j < i ==> pending[j].id != id
  {
    if pending == [] || pending[0].id == id then 0 else 1 + FirstWithID(pending[1..], id)
  }

  function RemoveByID(pending: seq<Pending>, id: string): seq<Pending> {
    var i := FirstWithID(pending, id);
    if i < |pending| then Remove(pending, i) else pending
  }

  function Names(pending: seq<Pending>): (r: seq<string>)
    ensures |r| == |pending| && forall i :: 0 <= i < |pending| ==> r[i] == pending[i].name
  {
    seq(|pending|, i requires 0 <= i < |pending| => pending[i].name)
  }

  /** The function a response is for: the one it names, else that of the first call waiting. */
  function Label(waiting: seq<string>, name: string): string {
    if name == "" && waiting != [] then waiting[0] else name
  }

  function Answering(h: History, r: Response): string {
    if r.id != "" then r.name else Label(Names(h.pending), r.name)
  }

  function AddStep(h: History, call: Call): (Issued, History) {
    var fallback := FallbackID(h);
    var id, h' := if call.id == "" then fallback.0 else call.id, if call.id == "" then fallback.1 else h;
    (Issued(true, call.name, id, call.id == ""), h'.(pending := h'.pending + [Pending(id, call.name)]))
  }

  function MatchStep(h: History, r: Response): (Issued, History) {
    var i := FirstAnswered(h.pending, r.name);
    var f := Answering(h, r);
    if r.id != "" then (Issued(false, f, r.id, false), h.(pending := RemoveByID(h.pending, r.id)))
    else if i < |h.pending| then
      (Issued(false, f, h.pending[i].id, false), h.(pending := Remove(h.pending, i)))
    else
      var fallback := FallbackID(h);
      (Issued(false, f, fallback.0, true), fallback.1)
  }

  // ---- a whole history --------------------------------------------------------------------

  /** The explicit ids of a part. */
  function Explicit(p: Part): set<string> {
    (if p.call.Some? && p.call.value.id != "" then {p.call.value.id} else {})
    + if p.response.Some? && p.response.value.id != "" then {p.response.value.id} else {}
  }

  function ExplicitIDs(parts: seq<Part>): set<string> {
    if parts == [] then {} else ExplicitIDs(parts[..|parts| - 1]) + Explicit(parts[|parts| - 1])
  }

  function Start(parts: seq<Part>): History { History(ExplicitIDs(parts), [], 1) }

  datatype Run = Run(history: History, issued: seq<Issued>)

  function Step(run: Run, p: Part): Run {
    if p.isMedia then run
    else if p.call.Some? then
      var (issued, h) := AddStep(run.history, p.call.value);
      Run(h, run.issued + [issued])
    else if p.response.Some? then
      var (issued, h) := MatchStep(run.history, p.response.value);
      Run(h, run.issued + [issued])
    else run
  }

  function RunOf(start: History, parts: seq<Part>): Run {
    if parts == [] then Run(start, []) else Step(RunOf(start, parts[..|parts| - 1]), parts[|parts| - 1])
  }

  /** The ids that the calls and responses of a whole history leave with. */
  function IssuedFor(parts: seq<Part>): seq<Issued> { RunOf(Start(parts), parts).issued }

  // ---- made-up ids are new ----------------------------------------------------------------

  ghost predicate IdsReserved(run: Run) {
    && (forall i :: 0 <= i < |run.issued| && run.issued[i].made ==> run.issued[i].id in run.history.reserved)
  }

  ghost predicate FreshOnce(issued: seq<Issued>, explicit: set<string>) {
    && (forall i :: 0 <= i < |issued| && issued[i].made ==> issued[i].id !in explicit)
    && (forall i, j :: 0 <= i < j < |issued| && issued[i].made && issued[j].made ==> issued[i].id != issued[j].id)
  }

  lemma StepFresh(run: Run, p: Part, explicit: set<string>)
    requires IdsReserved(run) && FreshOnce(run.issued, explicit) && explicit <= run.history.reserved
    ensures var next := Step(run, p);
            IdsReserved(next) && FreshOnce(next.issued, explicit) && explicit <= next.history.reserved
  {
  }

  lemma {:induction false} RunFresh(start: History, parts: seq<Part>)
    ensures var run := RunOf(start, parts);
            IdsReserved(run) && FreshOnce(run.issued, start.reserved) && start.reserved <= run.history.reserved
  {
    hide Step;
    if parts != [] {
      RunFresh(start, parts[..|parts| - 1]);
      StepFresh(RunOf(start, parts[..|parts| - 1]), parts[|parts| - 1], start.reserved);
    }
  }

  /** Over a whole history no made-up id is made up twice, and none is an explicit id of any part,
      processed or not, earlier or later. */
  lemma MadeUpIdsAreNew(parts: seq<Part>)
    ensures FreshOnce(IssuedFor(parts), ExplicitIDs(parts))
  {
    RunFresh(Start(parts), parts);
  }

  // ---- histories without ids --------------------------------------------------------------

  /** Old histories: no ids at all. */
  predicate Legacy(parts: seq<Part>) {
    forall i :: 0 <= i < |parts| ==> LegacyPart(parts[i])
  }

  predicate LegacyPart(p: Part) {
    && (p.call.Some? ==> p.call.value.id == "")
    && (p.response.Some? ==> p.response.value.id == "")
  }

  /** The first name a response of this name is for; a nameless one is for any. */
  function FirstNamed(waiting: seq<string>, name: string): (i: nat)
    ensures i <= |waiting|
  {
    if waiting == [] || name == "" || waiting[0] == name then 0 else 1 + FirstNamed(waiting[1..], name)
  }

  /** The names of the calls that have no response yet, in order. */
  function Waiting(parts: seq<Part>): seq<string> {
    if parts == [] then []
    else
      var before, p := Waiting(parts[..|parts| - 1]), parts[|parts| - 1];
      if p.isMedia then before
      else if p.call.Some? then before + [p.call.value.name]
      else if p.response.Some? && FirstNamed(before, p.response.value.name) < |before| then
        Remove(before, FirstNamed(before, p.response.value.name))
      else before
  }

  predicate Calls(p: Part, f: string) { !p.isMedia && p.call.Some? && p.call.value.name == f }

  /** A response for the function, when these names are waiting. */
  predicate Responds(waiting: seq<string>, p: Part, f: string) {
    !p.isMedia && p.call.None? && p.response.Some? && Label(waiting, p.response.value.name) == f
  }

  /** How many more calls than responses of the function there are. */
  function Open(parts: seq<Part>, f: string): int {
    if parts == [] then 0
    else
      var before, p := parts[..|parts| - 1], parts[|parts| - 1];
      Open(before, f) + if Calls(p, f) then 1 else if Responds(Waiting(before), p, f) then -1 else 0
  }

  /** No response of the function comes before its call. */
  predicate NeverOutrun(parts: seq<Part>, f: string) {
    parts == [] || (NeverOutrun(parts[..|parts| - 1], f) && Open(parts, f) >= 0)
  }

  /** The ids of the function's calls, or of its responses, in order. */
  function Ids(issued: seq<Issued>, isCall: bool, f: string): seq<string> {
    if issued == [] then []
    else
      var last := issued[|issued| - 1];
      Ids(issued[..|issued| - 1], isCall, f) + if last.isCall == isCall && last.name == f then [last.id] else []
  }

  function PendingIds(pending: seq<Pending>, f: string): seq<string> {
    if pending == [] then []
    else (if pending[0].name == f then [pending[0].id] else []) + PendingIds(pending[1..], f)
  }

  lemma {:induction false} PendingIdsConcat(a: seq<Pending>, b: seq<Pending>, f: string)
    ensures PendingIds(a + b, f) == PendingIds(a, f) + PendingIds(b, f)
  {
    if a == [] {
      assert a + b == b;
    } else {
      assert (a + b)[1..] == a[1..] + b;
      PendingIdsConcat(a[1..], b, f);
    }
  }

  lemma {:induction false} NoPendingIds(pending: seq<Pending>, f: string)
    requires forall i :: 0 <= i < |pending| ==> pending[i].name != f
    ensures PendingIds(pending, f) == []
  {
    if pending != [] {
      NoPendingIds(pending[1..], f);
    }
  }

  lemma OnePendingId(p: Pending, f: string)
    ensures PendingIds([p], f) == if p.name == f then [p.id] else []
  {
    assert [p][1..] == [];
  }

  /** Taking out the first call of its name leaves the others, and the later ones of that name. */
  lemma TakeOut(pending: seq<Pending>, i: nat, f: string)
    requires i < |pending| && forall j :: 0 <= j < i ==> pending[j].name != pending[i].name
    ensures PendingIds(pending, f)
         == (if pending[i].name == f then [pending[i].id] else []) + PendingIds(Remove(pending, i), f)
  {
    hide PendingIds;
    var before, after := pending[..i], pending[i + 1..];
    assert pending == before + ([pending[i]] + after);
    PendingIdsConcat(before, [pending[i]] + after, f);
    PendingIdsConcat([pending[i]], after, f);
    PendingIdsConcat(before, after, f);
    OnePendingId(pending[i], f);
    if pending[i].name == f {
      NoPendingIds(before, f);
    }
  }

  /** The call that a response takes is the first one of its function. */
  lemma TakeFirst(pending: seq<Pending>, r: string, f: string)
    requires FirstAnswered(pending, r) < |pending|
    ensures var i := FirstAnswered(pending, r);
            && pending[i].name == Label(Names(pending), r)
            && PendingIds(pending, f)
               == (if pending[i].name == f then [pending[i].id] else []) + PendingIds(Remove(pending, i), f)
  {
    hide PendingIds;
    TakeOut(pending, FirstAnswered(pending, r), f);
  }

  /** A response that finds no call is for a function without calls. */
  lemma TakeNone(pending: seq<Pending>, r: string)
    requires FirstAnswered(pending, r) == |pending|
    ensures PendingIds(pending, Label(Names(pending), r)) == []
  {
    NoPendingIds(pending, r);
  }

  lemma IdsNext(issued: seq<Issued>, last: Issued, isCall: bool, f: string)
    ensures Ids(issued + [last], isCall, f)
         == Ids(issued, isCall, f) + if last.isCall == isCall && last.name == f then [last.id] else []
  {
    assert (issued + [last])[..|issued|] == issued;
  }

  /** While responses have not outrun calls, the calls are those answered, in order, and then
      those pending. */
  ghost predicate InStep(run: Run, f: string) {
    Ids(run.issued, true, f) == Ids(run.issued, false, f) + PendingIds(run.history.pending, f)
  }

  lemma CallInStep(run: Run, p: Part, f: string)
    requires LegacyPart(p) && !p.isMedia && p.call.Some? && InStep(run, f)
    ensures InStep(Step(run, p), f)
  {
    hide FallbackID;
    var (issued, h) := AddStep(run.history, p.call.value);
    IdsNext(run.issued, issued, true, f);
    IdsNext(run.issued, issued, false, f);
    var pending := Pending(issued.id, issued.name);
    PendingSame(run.history);
    PendingIdsConcat(run.history.pending, [pending], f);
    assert [pending][1..] == [];
    assert PendingIds([pending], f) == if issued.name == f then [issued.id] else [];
  }

  lemma PendingSame(h: History)
    ensures FallbackID(h).1.pending == h.pending
  {
  }

  lemma ResponseInStep(run: Run, p: Part, f: string)
    requires LegacyPart(p) && !p.isMedia && p.call.None? && p.response.Some? && InStep(run, f)
    requires Responds(Names(run.history.pending), p, f) ==> PendingIds(run.history.pending, f) != []
    ensures InStep(Step(run, p), f)
  {
    hide FallbackID, PendingIds, FirstAnswered;
    var r := p.response.value;
    var (issued, h) := MatchStep(run.history, r);
    IdsNext(run.issued, issued, true, f);
    IdsNext(run.issued, issued, false, f);
    PendingSame(run.history);
    var i := FirstAnswered(run.history.pending, r.name);
    if i < |run.history.pending| {
      TakeFirst(run.history.pending, r.name, f);
    } else {
      TakeNone(run.history.pending, r.name);
    }
  }

  lemma FirstNamedIs(pending: seq<Pending>, name: string)
    ensures FirstNamed(Names(pending), name) == FirstAnswered(pending, name)
  {
    if pending != [] && !Answers(name, pending[0]) {
      assert Names(pending)[1..] == Names(pending[1..]);
      FirstNamedIs(pending[1..], name);
    }
  }

  lemma StepWaits(run: Run, p: Part, parts: seq<Part>)
    requires LegacyPart(p) && Names(run.history.pending) == Waiting(parts)
    ensures Names(Step(run, p).history.pending) == Waiting(parts + [p])
  {
    hide FirstNamed, FirstAnswered;
    assert (parts + [p])[..|parts|] == parts;
    PendingSame(run.history);
    if p.response.Some? {
      FirstNamedIs(run.history.pending, p.response.value.name);
    }
  }

  /** Which names are waiting can be read off the history. */
  lemma {:induction false} RunWaits(start: History, parts: seq<Part>)
    requires Legacy(parts) && start.pending == []
    ensures Names(RunOf(start, parts).history.pending) == Waiting(parts)
  {
    hide Step, Waiting, LegacyPart;
    if parts == [] {
      NothingWaits();
    } else {
      var before, p := parts[..|parts| - 1], parts[|parts| - 1];
      RunWaits(start, before);
      StepWaits(RunOf(start, before), p, before);
      assert parts == before + [p];
    }
  }

  lemma NothingWaits()
    ensures Waiting([]) == []
  {
  }

  lemma {:induction false} InStepSize(start: History, parts: seq<Part>, f: string)
    requires Legacy(parts) && start.pending == [] && NeverOutrun(parts, f)
    ensures InStep(RunOf(start, parts), f)
    ensures |PendingIds(RunOf(start, parts).history.pending, f)| == Open(parts, f)
  {
    hide InStep, LegacyPart, Step;
    if parts == [] {
      NothingInStep(start, f);
    } else {
      var before, p := parts[..|parts| - 1], parts[|parts| - 1];
      InStepSize(start, before, f);
      RunWaits(start, before);
      var run := RunOf(start, before);
      StepSize(run, p, f);
    }
  }

  lemma NothingInStep(start: History, f: string)
    requires start.pending == []
    ensures InStep(Run(start, []), f)
  {
  }

  lemma StepSize(run: Run, p: Part, f: string)
    requires LegacyPart(p) && InStep(run, f)
    requires Responds(Names(run.history.pending), p, f) ==> |PendingIds(run.history.pending, f)| > 0
    ensures InStep(Step(run, p), f)
    ensures |PendingIds(Step(run, p).history.pending, f)| == |PendingIds(run.history.pending, f)|
              + if Calls(p, f) then 1 else if Responds(Names(run.history.pending), p, f) then -1 else 0
  {
    hide FallbackID, FirstAnswered;
    if !p.isMedia && p.call.Some? {
      CallInStep(run, p, f);
      CountInStep(run, p, f);
    } else if !p.isMedia && p.response.Some? {
      ResponseInStep(run, p, f);
      CountInStep(run, p, f);
    }
  }

  lemma CountInStep(run: Run, p: Part, f: string)
    requires LegacyPart(p) && InStep(run, f) && InStep(Step(run, p), f)
    ensures |PendingIds(Step(run, p).history.pending, f)| == |PendingIds(run.history.pending, f)|
              + if Calls(p, f) then 1 else if Responds(Names(run.history.pending), p, f) then -1 else 0
  {
    hide FallbackID, PendingIds;
    var next := Step(run, p);
    if next.issued != run.issued {
      IdsNext(run.issued, next.issued[|run.issued|], true, f);
      IdsNext(run.issued, next.issued[|run.issued|], false, f);
    }
  }

  /** Once a response has got a made-up id, no call of the function will ever have it. */
  ghost predicate Outrun(run: Run, f: string, id: string) {
    && id in Ids(run.issued, false, f) && id !in Ids(run.issued, true, f)
    && id in run.history.reserved
  }

  lemma StaysOutrun(run: Run, p: Part, f: string, id: string)
    requires LegacyPart(p) && Outrun(run, f, id)
    ensures Outrun(Step(run, p), f, id)
  {
    var next := Step(run, p);
    if next.issued != run.issued {
      IdsNext(run.issued, next.issued[|run.issued|], true, f);
      IdsNext(run.issued, next.issued[|run.issued|], false, f);
    }
  }

  /** Every id of a call is set aside. */
  ghost predicate CallsReserved(run: Run, f: string) {
    forall id :: id in Ids(run.issued, true, f) ==> id in run.history.reserved
  }

  lemma StepReserved(run: Run, p: Part, f: string)
    requires LegacyPart(p) && CallsReserved(run, f)
    ensures CallsReserved(Step(run, p), f)
  {
    var next := Step(run, p);
    if next.issued != run.issued {
      IdsNext(run.issued, next.issued[|run.issued|], true, f);
    }
  }

  lemma {:induction false} RunReserved(start: History, parts: seq<Part>, f: string)
    requires Legacy(parts)
    ensures CallsReserved(RunOf(start, parts), f)
  {
    hide CallsReserved, Step, LegacyPart;
    if parts == [] {
      NothingReserved(start, f);
    } else {
      RunReserved(start, parts[..|parts| - 1], f);
      StepReserved(RunOf(start, parts[..|parts| - 1]), parts[|parts| - 1], f);
    }
  }

  lemma NothingReserved(start: History, f: string)
    ensures CallsReserved(Run(start, []), f)
  {
  }

  /** A response with no call pending gets an id that no call has. */
  lemma ResponseOutruns(run: Run, p: Part, f: string) returns (id: string)
    requires LegacyPart(p) && Responds(Names(run.history.pending), p, f) && PendingIds(run.history.pending, f) == []
    requires CallsReserved(run, f)
    ensures Outrun(Step(run, p), f, id)
  {
    hide PendingIds, FirstAnswered;
    var name := p.response.value.name;
    if FirstAnswered(run.history.pending, name) < |run.history.pending| {
      TakeFirst(run.history.pending, name, f);
    }
    var next := Step(run, p);
    var last := next.issued[|run.issued|];
    IdsNext(run.issued, last, true, f);
    IdsNext(run.issued, last, false, f);
    id := last.id;
  }

  lemma {:induction false} OutrunForGood(start: History, parts: seq<Part>, f: string) returns (id: string)
    requires Legacy(parts) && start.pending == [] && !NeverOutrun(parts, f)
    ensures Outrun(RunOf(start, parts), f, id)
  {
    hide Outrun, Step, InStep, CallsReserved, LegacyPart, Responds, Calls;
    var before, p := parts[..|parts| - 1], parts[|parts| - 1];
    var run := RunOf(start, before);
    RunWaits(start, before);
    if NeverOutrun(before, f) {
      InStepSize(start, before, f);
      RunReserved(start, before, f);
      id := ResponseOutruns(run, p, f);
    } else {
      id := OutrunForGood(start, before, f);
      StaysOutrun(run, p, f, id);
    }
  }

  /** In a history without ids the k-th response of a function gets the id of its k-th call,
      exactly when at no point the function has more responses than calls. A nameless response is
      one of the function whose call has waited longest. */
  lemma ResponsesAnswerInOrder(parts: seq<Part>, f: string)
    requires Legacy(parts)
    ensures Ids(IssuedFor(parts), false, f) <= Ids(IssuedFor(parts), true, f) <==> NeverOutrun(parts, f)
  {
    hide LegacyPart;
    if NeverOutrun(parts, f) {
      InStepSize(Start(parts), parts, f);
    } else {
      var id := OutrunForGood(Start(parts), parts, f);
    }
  }

  const EARLY := [Part(false, None, Some(Response("", "f"))), Part(false, Some(Call("", "f")), None)]

  /** The first two made-up ids, when no id is set aside. */
  lemma FirstFallbacks()
    ensures FallbackID(History({}, [], 1)) == ("call_1", History({"call_1"}, [], 2))
    ensures FallbackID(History({"call_1"}, [], 2)) == ("call_2", History({"call_1", "call_2"}, [], 3))
  {
    assert Text.Decimal(1) == "1" && Text.Decimal(2) == "2";
    assert Name(1) == "call_1" && Name(2) == "call_2";
    assert "call_1"[5] != "call_2"[5];
    assert FreeNumber({}, 1) == 1 && FreeNumber({"call_1"}, 2) == 2;
    assert {} + {"call_1"} == {"call_1"} && {"call_1"} + {"call_2"} == {"call_1", "call_2"};
  }

  /** A response before its call does not get the call's id. */
  lemma EarlyResponseIsLost()
    ensures Legacy(EARLY) && Ids(IssuedFor(EARLY), false, "f") == ["call_1"]
            && Ids(IssuedFor(EARLY), true, "f") == ["call_2"]
  {
    hide FallbackID;
    FirstFallbacks();
    var start := History({}, [], 1);
    assert EARLY[..1] == [EARLY[0]] && [EARLY[0]][..0] == [];
    assert ExplicitIDs([]) == {} && ExplicitIDs([EARLY[0]]) == {} && ExplicitIDs(EARLY) == {};
    var first, second := Issued(false, "f", "call_1", true), Issued(true, "f", "call_2", true);
    assert Names([]) == [] && [] + [first] == [first];
    RunConcat(start, [], EARLY[0]);
    assert RunOf(start, []) == Run(start, []);
    assert [] + [EARLY[0]] == [EARLY[0]];
    assert RunOf(start, [EARLY[0]]) == Run(History({"call_1"}, [], 2), [first]);
    assert IssuedFor(EARLY) == [first] + [second];
    IdsNext([], first, false, "f");
    IdsNext([], first, true, "f");
    IdsNext([first], second, false, "f");
    IdsNext([first], second, true, "f");
  }

  // ---- the object -------------------------------------------------------------------------

  function Flat(contents: seq<seq<Part>>): seq<Part> {
    if contents == [] then [] else Flat(contents[..|contents| - 1]) + contents[|contents| - 1]
  }

  lemma {:induction false} RunConcat(start: History, a: seq<Part>, p: Part)
    ensures RunOf(start, a + [p]) == Step(RunOf(start, a), p)
  {
    assert (a + [p])[..|a|] == a;
  }

  lemma NothingRun(start: History)
    ensures RunOf(start, []) == Run(start, [])
  {
  }

  lemma NothingFlat()
    ensures Flat([]) == [] && ExplicitIDs([]) == {}
  {
  }

  lemma FlatNext(contents: seq<seq<Part>>, i: nat)
    requires i < |contents|
    ensures Flat(contents[..i + 1]) == Flat(contents[..i]) + contents[i]
  {
    assert contents[..i + 1][..i] == contents[..i];
  }

  /** What the two checks of the scan add is what is explicit in the part. */
  lemma ExplicitNext(parts: seq<Part>, p: Part)
    ensures var call := if p.call.Some? && p.call.value.id != "" then {p.call.value.id} else {};
            var response := if p.response.Some? && p.response.value.id != "" then {p.response.value.id} else {};
            ExplicitIDs(parts + [p]) == ExplicitIDs(parts) + call + response
  {
    assert (parts + [p])[..|parts|] == parts;
  }

  class FunctionCallHistory {
    var reservedIDs: set<string>
    var pending: seq<Pending>
    var nextID: nat

    function View(): History
      reads this
    {
      History(reservedIDs, pending, nextID)
    }

    constructor (contents: seq<seq<Part>>)
      ensures View() == Start(Flat(contents))
    {
      hide ExplicitIDs, Explicit, Flat;
      pending, nextID := [], 1;
      var reserved: set<string> := {};
      NothingFlat();
      assert contents[..0] == [];
      for i := 0 to |contents|
        invariant reserved == ExplicitIDs(Flat(contents[..i]))
      {
        ghost var before := Flat(contents[..i]);
        FlatNext(contents, i);
        assert before + contents[i][..0] == before;
        for j := 0 to |contents[i]|
          invariant reserved == ExplicitIDs(before + contents[i][..j])
        {
          var part := contents[i][j];
          assert before + contents[i][..j + 1] == before + contents[i][..j] + [part];
          ExplicitNext(before + contents[i][..j], part);
          if part.call.Some? && part.call.value.id != "" {
            reserved := reserved + {part.call.value.id};
          }
          if part.response.Some? && part.response.value.id != "" {
            reserved := reserved + {part.response.value.id};
          }
        }
        assert contents[i][..|contents[i]|] == contents[i];
      }
      assert contents[..|contents|] == contents;
      reservedIDs := reserved;
    }

    method NewFallbackID() returns (id: string)
      modifies this
      ensures (id, View()) == FallbackID(old(View()))
    {
      while true
        invariant nextID >= old(nextID) && reservedIDs == old(reservedIDs) && pending == old(pending)
        invariant FreeNumber(reservedIDs, nextID) == FreeNumber(reservedIDs, old(nextID))
        decreases InTheWay(reservedIDs, nextID)
      {
        id := Name(nextID);
        if id in reservedIDs {
          FewerInTheWay(reservedIDs, nextID);
        }
        nextID := nextID + 1;
        if id in reservedIDs {
          continue;
        }
        reservedIDs := reservedIDs + {id};
        return;
      }
    }

    method Add(call: Call) returns (id: string)
      modifies this
      ensures id == AddStep(old(View()), call).0.id && View() == AddStep(old(View()), call).1
    {
      id := call.id;
      if id == "" {
        id := NewFallbackID();
      }
      pending := pending + [Pending(id, call.name)];
    }

    method Match(response: Response) returns (id: string)
      modifies this
      ensures id == MatchStep(old(View()), response).0.id && View() == MatchStep(old(View()), response).1
    {
      if response.id != "" {
        RemovePendingByID(response.id);
        return response.id;
      }
      for i := 0 to |pending|
        invariant View() == old(View())
        invariant i <= FirstAnswered(pending, response.name)
      {
        var call := pending[i];
        if response.name != "" && call.name != response.name {
          continue;
        }
        assert FirstAnswered(pending, response.name) == i;
        pending := pending[..i] + pending[i + 1..];
        return call.id;
      }
      id := NewFallbackID();
    }

    method RemovePendingByID(id: string)
      modifies this
      ensures View() == old(View()).(pending := RemoveByID(old(pending), id))
    {
      for i := 0 to |pending|
        invariant View() == old(View())
        invariant i <= FirstWithID(pending, id)
      {
        if pending[i].id != id {
          continue;
        }
        assert FirstWithID(pending, id) == i;
        pending := pending[..i] + pending[i + 1..];
        return;
      }
    }
  }

  /** The loops over the contents of a request, as far as ids go. */
  method ConvertCalls(contents: seq<seq<Part>>) returns (issued: seq<Issued>)
    ensures issued == IssuedFor(Flat(contents))
  {
    hide Step, Flat, RunOf;
    NothingFlat();
    assert contents[..0] == [];
    var history := new FunctionCallHistory(contents);
    ghost var start := history.View();
    NothingRun(start);
    issued := [];
    for i := 0 to |contents|
      invariant Run(history.View(), issued) == RunOf(start, Flat(contents[..i]))
    {
      FlatNext(contents, i);
      assert Flat(contents[..i]) + contents[i][..0] == Flat(contents[..i]);
      for j := 0 to |contents[i]|
        invariant Run(history.View(), issued) == RunOf(start, Flat(contents[..i]) + contents[i][..j])
      {
        var part := contents[i][j];
        ghost var run := Run(history.View(), issued);
        RunConcat(start, Flat(contents[..i]) + contents[i][..j], part);
        assert Flat(contents[..i]) + contents[i][..j + 1] == Flat(contents[..i]) + contents[i][..j] + [part];
        StepIs(run, part);
        if part.isMedia {
        } else if part.call.Some? {
          var call := part.call.value;
          var id := history.Add(call);
          issued := issued + [Issued(true, call.name, id, call.id == "")];
        } else if part.response.Some? {
          var response := part.response.value;
          var made := response.id == "" && FirstAnswered(history.pending, response.name) == |history.pending|;
          var f := Answering(history.View(), response);
          var id := history.Match(response);
          issued := issued + [Issued(false, f, id, made)];
        }
      }
      assert contents[i][..|contents[i]|] == contents[i];
    }
    assert contents[..|contents|] == contents;
  }

  lemma StepIs(run: Run, p: Part)
    ensures p.isMedia ==> Step(run, p) == run
    ensures !p.isMedia && p.call.Some? ==>
              var (issued, h) := AddStep(run.history, p.call.value);
              Step(run, p) == Run(h, run.issued + [issued])
    ensures !p.isMedia && p.call.None? && p.response.Some? ==>
              var (issued, h) := MatchStep(run.history, p.response.value);
              Step(run, p) == Run(h, run.issued + [issued])
    ensures !p.isMedia && p.call.None? && p.response.None? ==> Step(run, p) == run
  {
  }
}
