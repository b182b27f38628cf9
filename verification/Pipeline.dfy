/** The stream driver: a response is pushed, chunk by chunk, through a row of stateful
    converters, and at the end the converters are finalized one after the other, each
    one's last values still passing through the converters behind it. */
module Pipeline {

  import opened Basics

  /** A converter: one step per value and a finalizer, either of which may fail.
      S is the converter's state, V the chunks of any dialect. */
  datatype Stage<!S, !V> = Stage(step: (S, V) -> Option<(S, seq<V>)>, final: S -> Option<(S, seq<V>)>)

  // ---- the reference: one converter at a time ----------------------------------------

  /** A converter fed a list of values. */
  function Feed<S, V>(stage: Stage<S, V>, s: S, values: seq<V>): Option<(S, seq<V>)>
    decreases |values|
  {
    if values == [] then Some((s, [])) else
      match stage.step(s, values[0])
      case None => None
      case Some((s1, out1)) =>
        match Feed(stage, s1, values[1..])
        case None => None
        case Some((s2, out2)) => Some((s2, out1 + out2))
  }

  /** The composition: the complete output of each converter, finalizer included, is
      the input of the next. */
  function Composed<S, V>(stages: seq<Stage<S, V>>, states: seq<S>, input: seq<V>): Option<seq<V>>
    requires |stages| == |states|
  {
    if stages == [] then Some(input) else
      match Feed(stages[0], states[0], input)
      case None => None
      case Some((s, out)) =>
        match stages[0].final(s)
        case None => None
        case Some((_, last)) => Composed(stages[1..], states[1..], out + last)
  }

  // ---- the driver ----------------------------------------------------------------------

  /** executeResponseStreamSteps: the values run through all the stages. */
  function Execute<S, V>(stages: seq<Stage<S, V>>, states: seq<S>, values: seq<V>): (r: Option<(seq<S>, seq<V>)>)
    requires |stages| == |states|
    ensures r.Some? ==> |r.value.0| == |states|
  {
    if stages == [] then Some(([], values)) else
      match Feed(stages[0], states[0], values)
      case None => None
      case Some((s, out)) =>
        match Execute(stages[1..], states[1..], out)
        case None => None
        case Some((rest, out')) => Some(([s] + rest, out'))
  }

  /** ConvertStreamResponseChunk, for every chunk of a stream. */
  function ConvertAll<S, V>(stages: seq<Stage<S, V>>, states: seq<S>, chunks: seq<V>): (r: Option<(seq<S>, seq<V>)>)
    requires |stages| == |states|
    ensures r.Some? ==> |r.value.0| == |states|
    decreases |chunks|
  {
    if chunks == [] then Some((states, [])) else
      match Execute(stages, states, [chunks[0]])
      case None => None
      case Some((states1, out1)) =>
        match ConvertAll(stages, states1, chunks[1..])
        case None => None
        case Some((states2, out2)) => Some((states2, out1 + out2))
  }

  /** FinalizeStreamResponse. */
  function Finalize<S, V>(stages: seq<Stage<S, V>>, states: seq<S>): (r: Option<(seq<S>, seq<V>)>)
    requires |stages| == |states|
    ensures r.Some? ==> |r.value.0| == |states|
    decreases |stages|
  {
    if stages == [] then Some(([], [])) else
      match stages[0].final(states[0])
      case None => None
      case Some((s, last)) =>
        match Execute(stages[1..], states[1..], last)
        case None => None
        case Some((rest, out1)) =>
          match Finalize(stages[1..], rest)
          case None => None
          case Some((rest', out2)) => Some(([s] + rest', out1 + out2))
  }

  /** A whole stream through the driver. */
  function Stream<S, V>(stages: seq<Stage<S, V>>, states: seq<S>, chunks: seq<V>): Option<seq<V>>
    requires |stages| == |states|
  {
    match ConvertAll(stages, states, chunks)
    case None => None
    case Some((states', out1)) =>
      match Finalize(stages, states')
      case None => None
      case Some((_, out2)) => Some(out1 + out2)
  }

  // ---- the driver computes the composition -----------------------------------------------

  function Then<S, V>(first: Option<(S, seq<V>)>, rest: S -> Option<(S, seq<V>)>): Option<(S, seq<V>)> {
    match first
    case None => None
    case Some((s1, out1)) =>
      match rest(s1)
      case None => None
      case Some((s2, out2)) => Some((s2, out1 + out2))
  }

  /** Feeding in two parts is feeding once. */
  lemma {:induction false} FeedConcat<S, V>(stage: Stage<S, V>, s: S, a: seq<V>, b: seq<V>)
    ensures Feed(stage, s, a + b) == Then(Feed(stage, s, a), s1 => Feed(stage, s1, b))
    decreases |a|
  {
    if a == [] {
      assert a + b == b;
      var rest := Feed(stage, s, b);
      if rest.Some? { assert [] + rest.value.1 == rest.value.1; }
    } else {
      assert (a + b)[0] == a[0] && (a + b)[1..] == a[1..] + b;
      match stage.step(s, a[0])
      case None =>
      case Some((s1, out1)) =>
        FeedConcat(stage, s1, a[1..], b);
        match Feed(stage, s1, a[1..])
        case None =>
        case Some((s2, out2)) =>
          match Feed(stage, s2, b)
          case None =>
          case Some((s3, out3)) => assert out1 + (out2 + out3) == (out1 + out2) + out3;
    }
  }

  function ThenExecute<S, V>(stages: seq<Stage<S, V>>, first: Option<(seq<S>, seq<V>)>,
                             b: seq<V>): Option<(seq<S>, seq<V>)>
    requires first.Some? ==> |stages| == |first.value.0|
  {
    match first
    case None => None
    case Some((states1, out1)) =>
      match Execute(stages, states1, b)
      case None => None
      case Some((states2, out2)) => Some((states2, out1 + out2))
  }

  /** So is executing in two parts, the states being kept in between: it does not matter
      that the driver interleaves the stages. */
  lemma {:induction false} ExecuteConcat<S, V>(stages: seq<Stage<S, V>>, states: seq<S>, a: seq<V>, b: seq<V>)
    requires |stages| == |states|
    ensures Execute(stages, states, a + b) == ThenExecute(stages, Execute(stages, states, a), b)
    decreases |stages|
  {
    if stages != [] {
      FeedConcat(stages[0], states[0], a, b);
      match Feed(stages[0], states[0], a)
      case None =>
      case Some((s1, out1)) =>
        match Feed(stages[0], s1, b)
        case None =>
          match Execute(stages[1..], states[1..], out1) {
            case None =>
            case Some((rest, _)) => assert ([s1] + rest)[1..] == rest;
          }
        case Some((s2, out2)) =>
          ExecuteConcat(stages[1..], states[1..], out1, out2);
          match Execute(stages[1..], states[1..], out1) {
            case None =>
            case Some((rest, _)) => assert ([s1] + rest)[1..] == rest;
          }
    }
  }

  /** Nothing in, nothing out, nothing changed: why the driver may return early. */
  lemma {:induction false} ExecuteNothing<S, V>(stages: seq<Stage<S, V>>, states: seq<S>)
    requires |stages| == |states|
    ensures Execute(stages, states, []) == Some((states, []))
    decreases |stages|
  {
    if stages != [] {
      ExecuteNothing(stages[1..], states[1..]);
      assert [states[0]] + states[1..] == states;
    }
  }

  lemma {:induction false} ConvertAllIsExecute<S, V>(stages: seq<Stage<S, V>>, states: seq<S>, chunks: seq<V>)
    requires |stages| == |states|
    ensures ConvertAll(stages, states, chunks) == Execute(stages, states, chunks)
    decreases |chunks|
  {
    if chunks == [] {
      ExecuteNothing(stages, states);
    } else {
      assert chunks == [chunks[0]] + chunks[1..];
      ExecuteConcat(stages, states, [chunks[0]], chunks[1..]);
      match Execute(stages, states, [chunks[0]])
      case None =>
      case Some((states1, _)) => ConvertAllIsExecute(stages, states1, chunks[1..]);
    }
  }

  function ThenFinalize<S, V>(stages: seq<Stage<S, V>>, first: Option<(seq<S>, seq<V>)>): Option<seq<V>>
    requires first.Some? ==> |stages| == |first.value.0|
  {
    match first
    case None => None
    case Some((states1, out1)) =>
      match Finalize(stages, states1)
      case None => None
      case Some((_, out2)) => Some(out1 + out2)
  }

  lemma {:induction false} ExecuteThenFinalize<S, V>(stages: seq<Stage<S, V>>, states: seq<S>, input: seq<V>)
    requires |stages| == |states|
    ensures ThenFinalize(stages, Execute(stages, states, input)) == Composed(stages, states, input)
    decreases |stages|
  {
    if stages == [] {
      assert input + [] == input;
    } else {
      match Feed(stages[0], states[0], input)
      case None =>
      case Some((s, out)) =>
        var rest := Execute(stages[1..], states[1..], out);
        if rest.Some? { assert ([s] + rest.value.0)[1..] == rest.value.0; }
        match stages[0].final(s)
        case None =>
        case Some((_, last)) =>
          ExecuteThenFinalize(stages[1..], states[1..], out + last);
          ExecuteConcat(stages[1..], states[1..], out, last);
          FinalizeOutputs(stages[1..], rest, last);
    }
  }

  function Prefixed<V>(before: seq<V>, r: Option<seq<V>>): Option<seq<V>> {
    if r.None? then None else Some(before + r.value)
  }

  /** Regrouping the three outputs of a stage: chunks, finalizer values, later finalizers. */
  lemma FinalizeOutputs<S, V>(stages: seq<Stage<S, V>>, first: Option<(seq<S>, seq<V>)>, last: seq<V>)
    requires first.Some? ==> |stages| == |first.value.0|
    ensures ThenFinalize(stages, ThenExecute(stages, first, last)) ==
            if first.None? then None
            else Prefixed(first.value.1, ThenFinalize(stages, Execute(stages, first.value.0, last)))
  {
    match first
    case None =>
    case Some((states1, out1)) =>
      match Execute(stages, states1, last)
      case None =>
      case Some((states2, out2)) =>
        match Finalize(stages, states2)
        case None =>
        case Some((_, out3)) => assert out1 + (out2 + out3) == (out1 + out2) + out3;
  }

  /** Chunk by chunk through all stages and then finalized stage by stage, a stream
      comes out, or fails, exactly as the composition of the whole stages says. */
  lemma StreamIsComposition<S, V>(stages: seq<Stage<S, V>>, states: seq<S>, chunks: seq<V>)
    requires |stages| == |states|
    ensures Stream(stages, states, chunks) == Composed(stages, states, chunks)
  {
    ConvertAllIsExecute(stages, states, chunks);
    ExecuteThenFinalize(stages, states, chunks);
  }

  // ---- the driver as it runs ---------------------------------------------------------------

  lemma {:induction false} ExecuteFrom<S, V>(stages: seq<Stage<S, V>>, states: seq<S>, values: seq<V>, k: nat)
    requires |stages| == |states| && k < |stages|
    ensures var fed := Feed(stages[k], states[k], values);
            Execute(stages[k..], states[k..], values) ==
            if fed.None? then None else
              var rest := Execute(stages[k + 1..], states[k + 1..], fed.value.1);
              if rest.None? then None else Some(([fed.value.0] + rest.value.0, rest.value.1))
  {
    assert stages[k..][1..] == stages[k + 1..] && states[k..][1..] == states[k + 1..];
  }

  /** Results of the later stages, behind the states of the earlier ones. */
  function Resumed<S, V>(done: seq<S>, rest: Option<(seq<S>, seq<V>)>): Option<(seq<S>, seq<V>)> {
    if rest.None? then None else Some((done + rest.value.0, rest.value.1))
  }

  lemma FeedOne<S, V>(stage: Stage<S, V>, s: S, value: V)
    ensures Feed(stage, s, [value]) == stage.step(s, value)
  {
    assert [value][1..] == [];
    match stage.step(s, value)
    case None =>
    case Some((s1, out)) =>
      assert Feed(stage, s1, []) == Some((s1, []));
      assert out + [] == out;
  }

  lemma FeedSnoc<S, V>(stage: Stage<S, V>, s: S, values: seq<V>, k: nat)
    requires k < |values|
    ensures Feed(stage, s, values[..k + 1]) == Then(Feed(stage, s, values[..k]), s1 => stage.step(s1, values[k]))
  {
    assert values[..k + 1] == values[..k] + [values[k]];
    FeedConcat(stage, s, values[..k], [values[k]]);
    if Feed(stage, s, values[..k]).Some? {
      FeedOne(stage, Feed(stage, s, values[..k]).value.0, values[k]);
    }
  }

  lemma {:induction false} FeedPrefixFails<S, V>(stage: Stage<S, V>, s: S, values: seq<V>, k: nat)
    requires k <= |values| && Feed(stage, s, values[..k]).None?
    ensures Feed(stage, s, values).None?
  {
    assert values == values[..k] + values[k..];
    FeedConcat(stage, s, values[..k], values[k..]);
  }

  class ResponseStream<S, V> {
    const specs: seq<Stage<S, V>>
    var stepStates: seq<S>

    ghost predicate Valid()
      reads this
    {
      |stepStates| == |specs|
    }

    constructor (specs: seq<Stage<S, V>>, initial: seq<S>)
      requires |specs| == |initial|
      ensures Valid() && this.specs == specs && stepStates == initial
    {
      this.specs := specs;
      stepStates := initial;
    }

    /** One stage over a list of values. */
    method FeedStage(i: nat, values: seq<V>) returns (out: Option<seq<V>>)
      requires Valid() && i < |specs|
      modifies this
      ensures Valid()
      ensures var fed := Feed(specs[i], old(stepStates[i]), values);
              if fed.None? then out.None?
              else out == Some(fed.value.1) && stepStates == old(stepStates)[i := fed.value.0]
    {
      var next: seq<V> := [];
      for k := 0 to |values|
        invariant Valid() && stepStates == old(stepStates)[i := stepStates[i]]
        invariant Feed(specs[i], old(stepStates[i]), values[..k]) == Some((stepStates[i], next))
      {
        FeedSnoc(specs[i], old(stepStates[i]), values, k);
        match specs[i].step(stepStates[i], values[k])
        case None =>
          FeedPrefixFails(specs[i], old(stepStates[i]), values, k + 1);
          return None;
        case Some((s, o)) =>
          stepStates := stepStates[i := s];
          next := next + o;
      }
      assert values[..|values|] == values;
      out := Some(next);
    }

    /** executeResponseStreamSteps: stop as soon as a stage has nothing to pass on. */
    method ExecuteSteps(values: seq<V>, start: nat) returns (out: Option<seq<V>>)
      requires Valid() && start <= |specs|
      modifies this
      ensures Valid()
      ensures var goal := Resumed(old(stepStates)[..start], Execute(specs[start..], old(stepStates)[start..], values));
              if goal.None? then out.None? else out == Some(goal.value.1) && stepStates == goal.value.0
    {
      hide Execute, Feed, Resumed;
      var current := values;
      var i := start;
      ghost var was := stepStates;
      ghost var goal := Resumed(was[..start], Execute(specs[start..], was[start..], values));
      while i < |specs|
        invariant start <= i <= |specs| && Valid()
        invariant stepStates[i..] == was[i..]
        invariant goal == Resumed(stepStates[..i], Execute(specs[i..], stepStates[i..], current))
      {
        ghost var before := stepStates;
        var next := FeedStage(i, current);
        StageDone(specs, before, stepStates, current, i);
        if next.None? { return None; }
        current := next.value;
        i := i + 1;
        if current == [] {
          ExecuteNothing(specs[i..], stepStates[i..]);
          ResumedIs(stepStates[..i], stepStates[i..], []);
          assert stepStates[..i] + stepStates[i..] == stepStates;
          return Some([]);
        }
      }
      assert stepStates[i..] == [] && specs[i..] == [];
      ExecuteDone(current);
      ResumedIs(stepStates[..i], [], current);
      assert stepStates[..i] + [] == stepStates;
      out := Some(current);
    }

    static lemma ExecuteDone(values: seq<V>)
      ensures Execute<S, V>([], [], values) == Some(([], values))
    {
    }

    static lemma ResumedIs(done: seq<S>, rest: seq<S>, o: seq<V>)
      ensures Resumed(done, Some((rest, o))) == Some((done + rest, o))
    {
    }

    /** The state of stage i moves from the rest to the part that is done. */
    static lemma StageDone(specs: seq<Stage<S, V>>, before: seq<S>, after: seq<S>, values: seq<V>, i: nat)
      requires |specs| == |before| && i < |specs|
      ensures var fed := Feed(specs[i], before[i], values);
              var goal := Resumed(before[..i], Execute(specs[i..], before[i..], values));
              if fed.None? then goal.None?
              else after == before[i := fed.value.0] ==>
                && |after| == |specs| && after[i + 1..] == before[i + 1..]
                && goal == Resumed(after[..i + 1], Execute(specs[i + 1..], after[i + 1..], fed.value.1))
    {
      hide Execute, Feed;
      ExecuteFrom(specs, before, values, i);
      var fed := Feed(specs[i], before[i], values);
      if fed.Some? && after == before[i := fed.value.0] {
        var rest := Execute(specs[i + 1..], before[i + 1..], fed.value.1);
        assert after[..i + 1] == before[..i] + [fed.value.0];
        if rest.Some? {
          assert before[..i] + ([fed.value.0] + rest.value.0) == before[..i] + [fed.value.0] + rest.value.0;
        }
      }
    }

    /** ConvertStreamResponseChunk. */
    method ConvertChunk(chunk: V) returns (out: Option<seq<V>>)
      requires Valid()
      modifies this
      ensures Valid()
      ensures match Execute(specs, old(stepStates), [chunk])
              case None => out.None?
              case Some((states, o)) => out == Some(o) && stepStates == states
    {
      assert specs[0..] == specs && stepStates[0..] == stepStates;
      out := ExecuteSteps([chunk], 0);
    }

    /** FinalizeStreamResponse. */
    method FinalizeStream() returns (out: Option<seq<V>>)
      requires Valid()
      modifies this
      ensures Valid()
      ensures match Finalize(specs, old(stepStates))
              case None => out.None?
              case Some((states, o)) => out == Some(o) && stepStates == states
    {
      hide Execute, Feed;
      var values: seq<V> := [];
      ghost var goal := Finalize(specs, stepStates);
      assert specs[0..] == specs && stepStates[0..] == stepStates;
      if goal.Some? {
        assert stepStates[..0] + goal.value.0 == goal.value.0 && values + goal.value.1 == goal.value.1;
      }
      for i := 0 to |specs|
        invariant Valid()
        invariant goal == match Finalize(specs[i..], stepStates[i..])
                          case None => None
                          case Some((rest, o)) => Some((stepStates[..i] + rest, values + o))
      {
        assert specs[i..][1..] == specs[i + 1..] && stepStates[i..][1..] == stepStates[i + 1..];
        match specs[i].final(stepStates[i])
        case None => return None;
        case Some((s, last)) =>
          ghost var before := stepStates;
          stepStates := stepStates[i := s];
          assert stepStates[i + 1..] == before[i + 1..] && stepStates[..i + 1] == before[..i] + [s];
          if last == [] {
            ExecuteNothing(specs[i + 1..], stepStates[i + 1..]);
            FinalRegroup(goal, Finalize(specs[i + 1..], stepStates[i + 1..]), before[..i], s, values, []);
            assert values + [] == values;
          } else {
            var current := ExecuteSteps(last, i + 1);
            if current.None? { return None; }
            assert stepStates[..i + 1] == before[..i] + [s];
            FinalRegroup(goal, Finalize(specs[i + 1..], stepStates[i + 1..]), before[..i], s, values, current.value);
            values := values + current.value;
          }
      }
      assert stepStates[|specs|..] == [] && stepStates[..|specs|] + [] == stepStates && values + [] == values;
      out := Some(values);
    }

    static lemma FinalRegroup(goal: Option<(seq<S>, seq<V>)>, rest: Option<(seq<S>, seq<V>)>, done: seq<S>, s: S,
                              values: seq<V>, more: seq<V>)
      requires goal == match rest
                       case None => None
                       case Some((states, o)) => Some((done + ([s] + states), values + (more + o)))
      ensures goal == match rest
                      case None => None
                      case Some((states, o)) => Some(((done + [s]) + states, (values + more) + o))
    {
      if rest.Some? {
        assert done + ([s] + rest.value.0) == (done + [s]) + rest.value.0;
        assert values + (more + rest.value.1) == (values + more) + rest.value.1;
      }
    }
  }
}
