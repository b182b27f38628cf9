/** Gemini to Chat: the tool index of a function call within its candidate. Gemini repeats a call
    under one id, or sends calls without any. */
module GeminiToolIndexes {
  import Text

  /** A call of a candidate, with its id as it was sent. */
  datatype Call = Call(candidate: int, id: string)

  /** A call, its trimmed id, and the index it got. */
  datatype Placed = Placed(candidate: int, id: string, index: int)

  datatype State = State(next: map<int, nat>, byId: map<int, map<string, int>>)

  const INITIAL := State(map[], map[])

  function NextOf(s: State, c: int): nat { if c in s.next then s.next[c] else 0 }

  function IdsOf(s: State, c: int): map<string, int> { if c in s.byId then s.byId[c] else map[] }

  function Place(s: State, call: Call): (State, Placed) {
    var c, id := call.candidate, Text.Trim(call.id);
    var ids, n := IdsOf(s, c), NextOf(s, c);
    if id != "" && id in ids then (s.(byId := s.byId[c := ids]), Placed(c, id, ids[id]))
    else (State(s.next[c := n + 1], s.byId[c := if id != "" then ids[id := n] else ids]), Placed(c, id, n))
  }

  datatype Run = Run(state: State, placed: seq<Placed>)

  function RunOf(calls: seq<Call>): Run {
    if calls == [] then Run(INITIAL, [])
    else
      var before := RunOf(calls[..|calls| - 1]);
      var (s, p) := Place(before.state, calls[|calls| - 1]);
      Run(s, before.placed + [p])
  }

  // ---- the theorem ------------------------------------------------------------------------

  /** Two calls of a candidate share an index exactly if they share an id. */
  predicate SharedById(placed: seq<Placed>) {
    forall i, j :: 0 <= i < j < |placed| && placed[i].candidate == placed[j].candidate ==>
      (placed[i].index == placed[j].index <==> placed[i].id == placed[j].id != "")
  }

  /** One past the highest index of a candidate so far. */
  function Count(placed: seq<Placed>, c: int): int {
    if placed == [] then 0
    else
      var before, p := Count(placed[..|placed| - 1], c), placed[|placed| - 1];
      if p.candidate == c && p.index >= before then p.index + 1 else before
  }

  /** Every call repeats an index of its candidate or takes the next one. */
  predicate Dense(placed: seq<Placed>) {
    forall k :: 0 <= k < |placed| ==> 0 <= placed[k].index <= Count(placed[..k], placed[k].candidate)
  }

  /** The maps say what was placed. */
  ghost predicate Known(s: State, placed: seq<Placed>) {
    CountsKnown(s, placed) && IndexesKnown(s, placed) && IdsKept(s, placed) && IdsPlaced(s, placed)
  }

  ghost predicate CountsKnown(s: State, placed: seq<Placed>) { forall c :: NextOf(s, c) == Count(placed, c) }

  predicate IndexesKnown(s: State, placed: seq<Placed>) {
    forall k :: 0 <= k < |placed| ==> 0 <= placed[k].index < NextOf(s, placed[k].candidate)
  }

  predicate IdsKept(s: State, placed: seq<Placed>) {
    forall k :: 0 <= k < |placed| && placed[k].id != "" ==>
      placed[k].id in IdsOf(s, placed[k].candidate)
      && IdsOf(s, placed[k].candidate)[placed[k].id] == placed[k].index
  }

  ghost predicate IdsPlaced(s: State, placed: seq<Placed>) {
    forall c, id :: id in IdsOf(s, c) ==> id != "" && WasPlaced(placed, Placed(c, id, IdsOf(s, c)[id]))
  }

  predicate WasPlaced(placed: seq<Placed>, p: Placed) { exists k :: 0 <= k < |placed| && placed[k] == p }

  lemma CountNext(placed: seq<Placed>, p: Placed, c: int)
    ensures Count(placed + [p], c)
         == if p.candidate == c && p.index >= Count(placed, c) then p.index + 1 else Count(placed, c)
  {
    assert (placed + [p])[..|placed|] == placed;
  }

  lemma DenseNext(placed: seq<Placed>, p: Placed)
    requires Dense(placed) && 0 <= p.index <= Count(placed, p.candidate)
    ensures Dense(placed + [p])
  {
    var more := placed + [p];
    forall k | 0 <= k < |more| ensures 0 <= more[k].index <= Count(more[..k], more[k].candidate) {
      assert more[..k] == placed[..k];
      if k == |placed| {
        assert placed[..k] == placed;
      }
    }
  }

  lemma WasPlacedNext(placed: seq<Placed>, p: Placed, q: Placed)
    ensures WasPlaced(placed + [p], q) <==> WasPlaced(placed, q) || q == p
  {
    var more := placed + [p];
    if k :| 0 <= k < |placed| && placed[k] == q { assert more[k] == q; }
    if q == p { assert more[|placed|] == q; }
  }

  /** The id of a call that has a place already. */
  predicate Repeats(s: State, p: Placed) { p.id != "" && p.id in IdsOf(s, p.candidate) }

  /** What placing a call does to the maps of a candidate. */
  lemma PlaceSays(s: State, call: Call, c: int)
    ensures var (s', p) := Place(s, call);
            if Repeats(s, p) then
              && p.index == IdsOf(s, p.candidate)[p.id]
              && NextOf(s', c) == NextOf(s, c) && IdsOf(s', c) == IdsOf(s, c)
            else
              && p.index == NextOf(s, p.candidate)
              && NextOf(s', c) == (if c == p.candidate then NextOf(s, c) + 1 else NextOf(s, c))
              && IdsOf(s', c) == if c == p.candidate && p.id != "" then IdsOf(s, c)[p.id := p.index] else IdsOf(s, c)
  {
    hide Text.Trim;
  }

  /** A repeated call has the index of the one before it. */
  lemma RepeatsPlaced(s: State, placed: seq<Placed>, p: Placed)
    requires Known(s, placed) && Repeats(s, p) && p.index == IdsOf(s, p.candidate)[p.id]
    ensures WasPlaced(placed, p) && 0 <= p.index < NextOf(s, p.candidate)
  {
    hide NextOf, IdsOf, Count;
    var k :| 0 <= k < |placed| && placed[k] == Placed(p.candidate, p.id, p.index);
  }

  lemma PlaceCounts(s: State, placed: seq<Placed>, call: Call)
    requires Known(s, placed)
    ensures var (s', p) := Place(s, call);
            CountsKnown(s', placed + [p]) && 0 <= p.index <= Count(placed, p.candidate)
  {
    hide Place, NextOf, IdsOf, Count, IndexesKnown, IdsKept, IdsPlaced;
    var (s', p) := Place(s, call);
    PlaceSays(s, call, p.candidate);
    if Repeats(s, p) { RepeatsPlaced(s, placed, p); }
    forall c ensures NextOf(s', c) == Count(placed + [p], c) {
      PlaceSays(s, call, c);
      CountNext(placed, p, c);
    }
  }

  lemma PlaceIndexes(s: State, placed: seq<Placed>, call: Call)
    requires Known(s, placed)
    ensures IndexesKnown(Place(s, call).0, placed + [Place(s, call).1])
  {
    hide Place, NextOf, IdsOf, Count, IdsKept, IdsPlaced;
    var (s', p) := Place(s, call);
    PlaceSays(s, call, p.candidate);
    if Repeats(s, p) { RepeatsPlaced(s, placed, p); }
    forall k | 0 <= k < |placed| ensures placed[k].index < NextOf(s', placed[k].candidate) {
      PlaceSays(s, call, placed[k].candidate);
    }
  }

  lemma PlaceKeepsIds(s: State, placed: seq<Placed>, call: Call)
    requires Known(s, placed)
    ensures IdsKept(Place(s, call).0, placed + [Place(s, call).1])
  {
    hide Place, NextOf, IdsOf, CountsKnown, IndexesKnown, IdsPlaced;
    var (s', p) := Place(s, call);
    PlaceSays(s, call, p.candidate);
    forall k | 0 <= k < |placed| && placed[k].id != ""
      ensures placed[k].id in IdsOf(s', placed[k].candidate)
      ensures IdsOf(s', placed[k].candidate)[placed[k].id] == placed[k].index
    {
      PlaceSays(s, call, placed[k].candidate);
    }
  }

  lemma PlaceIds(s: State, placed: seq<Placed>, call: Call)
    requires Known(s, placed)
    ensures IdsPlaced(Place(s, call).0, placed + [Place(s, call).1])
  {
    hide Place, NextOf, IdsOf, CountsKnown, IndexesKnown, IdsKept, WasPlaced;
    var (s', p) := Place(s, call);
    forall c, id | id in IdsOf(s', c)
      ensures id != "" && WasPlaced(placed + [p], Placed(c, id, IdsOf(s', c)[id]))
    {
      PlaceSays(s, call, c);
      WasPlacedNext(placed, p, Placed(c, id, IdsOf(s', c)[id]));
    }
  }

  lemma PlaceKnown(s: State, placed: seq<Placed>, call: Call)
    requires Known(s, placed)
    ensures var (s', p) := Place(s, call);
            Known(s', placed + [p]) && 0 <= p.index <= Count(placed, p.candidate)
  {
    hide Place, CountsKnown, IndexesKnown, IdsKept, IdsPlaced;
    PlaceCounts(s, placed, call);
    PlaceIndexes(s, placed, call);
    PlaceKeepsIds(s, placed, call);
    PlaceIds(s, placed, call);
  }

  lemma PlaceShares(s: State, placed: seq<Placed>, call: Call)
    requires Known(s, placed) && SharedById(placed)
    ensures SharedById(placed + [Place(s, call).1])
  {
    hide Place, NextOf, IdsOf, Count, CountsKnown;
    var p := Place(s, call).1;
    PlaceSays(s, call, p.candidate);
    if Repeats(s, p) { RepeatsPlaced(s, placed, p); }
    forall i | 0 <= i < |placed| && placed[i].candidate == p.candidate
      ensures placed[i].index == p.index <==> placed[i].id == p.id != ""
    {
      if Repeats(s, p) {
        var k :| 0 <= k < |placed| && placed[k] == p;
      }
    }
  }

  lemma {:induction false} RunKnown(calls: seq<Call>)
    ensures var run := RunOf(calls);
            Known(run.state, run.placed) && Dense(run.placed) && SharedById(run.placed) && |run.placed| == |calls|
  {
    hide Place, Known, Dense, SharedById, Count;
    if calls == [] {
      NothingPlaced();
    } else {
      var before := RunOf(calls[..|calls| - 1]);
      RunKnown(calls[..|calls| - 1]);
      PlaceKnown(before.state, before.placed, calls[|calls| - 1]);
      PlaceShares(before.state, before.placed, calls[|calls| - 1]);
      DenseNext(before.placed, Place(before.state, calls[|calls| - 1]).1);
    }
  }

  lemma NothingPlaced()
    ensures Known(INITIAL, []) && Dense([]) && SharedById([])
  {
  }

  /** Over a whole stream, within each candidate the tool indexes are dense and first appear in
      order, and two calls share an index exactly if they carry the same id; a call without an id
      shares its index with no other. */
  lemma IndexesFollowIds(calls: seq<Call>)
    ensures Dense(RunOf(calls).placed) && SharedById(RunOf(calls).placed)
    ensures |RunOf(calls).placed| == |calls|
  {
    RunKnown(calls);
  }

  // ---- the object -------------------------------------------------------------------------

  class ToolIndexes {
    var nextToolIndexByCandidate: map<int, nat>
    var toolIndexByCandidateID: map<int, map<string, int>>

    function View(): State
      reads this
    {
      State(nextToolIndexByCandidate, toolIndexByCandidateID)
    }

    constructor ()
      ensures View() == INITIAL
    {
      nextToolIndexByCandidate, toolIndexByCandidateID := map[], map[];
    }

    /** One function call of a candidate. */
    method StableIndex(candidate: int, id: string) returns (stableIndex: int)
      modifies this
      ensures View() == Place(old(View()), Call(candidate, id)).0
      ensures stableIndex == Place(old(View()), Call(candidate, id)).1.index
    {
      hide Text.Trim, View;
      var callID := Text.Trim(id);
      var indexesByID := IndexesByID(candidate);
      stableIndex := 0;
      if callID in indexesByID {
        stableIndex := indexesByID[callID];
      }
      if callID == "" || callID !in indexesByID {
        stableIndex := NextIndex(candidate);
        if callID != "" {
          indexesByID := indexesByID[callID := stableIndex];
          Remember(candidate, indexesByID);
        }
      }
    }

    /** The indexes of a candidate by id, which it has from now on. */
    method IndexesByID(candidate: int) returns (indexesByID: map<string, int>)
      modifies this`toolIndexByCandidateID
      ensures indexesByID == IdsOf(old(View()), candidate)
      ensures View() == old(View()).(byId := old(View()).byId[candidate := indexesByID])
    {
      indexesByID := map[];
      if candidate in toolIndexByCandidateID {
        indexesByID := toolIndexByCandidateID[candidate];
      }
      toolIndexByCandidateID := toolIndexByCandidateID[candidate := indexesByID];
    }

    method NextIndex(candidate: int) returns (index: nat)
      modifies this`nextToolIndexByCandidate
      ensures index == NextOf(old(View()), candidate)
      ensures View() == old(View()).(next := old(View()).next[candidate := index + 1])
    {
      index := if candidate in nextToolIndexByCandidate then nextToolIndexByCandidate[candidate] else 0;
      nextToolIndexByCandidate := nextToolIndexByCandidate[candidate := index + 1];
    }

    method Remember(candidate: int, indexesByID: map<string, int>)
      requires candidate in View().byId
      modifies this`toolIndexByCandidateID
      ensures View() == old(View()).(byId := old(View()).byId[candidate := indexesByID])
    {
      toolIndexByCandidateID := toolIndexByCandidateID[candidate := indexesByID];
    }
  }
}
