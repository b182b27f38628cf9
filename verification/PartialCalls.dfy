/** Function calls that Gemini streams in parts: one open call per candidate, whose
    arguments grow until a part does not announce another. */
module PartialCalls {
  import opened Basics
  import opened PartialArguments
  import ArgumentPath
  import Text

  datatype PartialValue = NoValue | StringValue(text: string) | OtherValue(value: Json)

  datatype PartialArg = PartialArg(jsonPath: string, value: PartialValue)

  datatype FunctionCall = FunctionCall(id: string, name: string, arguments: Json, partialArgs: seq<PartialArg>,
                                       willContinue: Option<bool>)

  datatype Open = Open(id: string, name: string, arguments: Json)

  const FRESH := Open("", "", Object(map[]))

  /** What a part leads to: another part is to follow, or the call is complete. */
  datatype Progress = Waiting | Ready(call: Open)

  // ---- one part ----------------------------------------------------------------------------

  predicate Agrees(current: string, incoming: string) {
    Text.Trim(incoming) == "" || current == "" || current == Text.Trim(incoming)
  }

  function Kept(current: string, incoming: string): string {
    if Text.Trim(incoming) != "" then Text.Trim(incoming) else current
  }

  /** One partial argument: a path must parse even when nothing comes with it. */
  function AddArg(j: Json, arg: PartialArg, unquote: ArgumentPath.Unquote): Option<Json> {
    var path := ArgumentPath.Parse(arg.jsonPath, unquote);
    if path.None? then None
    else match arg.value
      case NoValue => Some(j)
      case StringValue(text) => Set(j, path.value, Str(text), true)
      case OtherValue(value) => Set(j, path.value, value, false)
  }

  function AddArgs(j: Json, args: seq<PartialArg>, unquote: ArgumentPath.Unquote): Option<Json> {
    if args == [] then Some(j) else
      var before := AddArgs(j, args[..|args| - 1], unquote);
      if before.None? then None else AddArg(before.value, args[|args| - 1], unquote)
  }

  function Current(open: map<int, Open>, candidate: int): Open { if candidate in open then open[candidate] else FRESH }

  predicate Continues(call: FunctionCall) { call.willContinue.Some? && call.willContinue.value }

  /** appendPartialFunctionCall: the completed call once no part is to follow; None is an error. */
  function Append(open: map<int, Open>, candidate: int, call: FunctionCall, unquote: ArgumentPath.Unquote)
    : Option<(map<int, Open>, Progress)>
  {
    var current := Current(open, candidate);
    if !Agrees(current.id, call.id) || !Agrees(current.name, call.name) then None else
      var arguments := AddArgs(current.arguments, call.partialArgs, unquote);
      if arguments.None? then None else
        var grown := Open(Kept(current.id, call.id), Kept(current.name, call.name), arguments.value);
        if Continues(call) then Some((open[candidate := grown], Waiting))
        else if grown.name == "" then None
        else Some((open - {candidate}, Ready(grown)))
  }

  // ---- the state as it is kept -----------------------------------------------------------------

  class PartialToolCalls {
    var partialToolByCandidate: map<int, Open>

    constructor ()
      ensures partialToolByCandidate == map[]
    {
      partialToolByCandidate := map[];
    }

    method AppendPartialFunctionCall(candidate: int, call: FunctionCall, unquote: ArgumentPath.Unquote)
      returns (out: Option<Progress>)
      modifies this
      ensures var r := Append(old(partialToolByCandidate), candidate, call, unquote);
              if r.None? then out.None? else out == Some(r.value.1) && partialToolByCandidate == r.value.0
    {
      hide AddArg, Text.Trim;
      var current := if candidate in partialToolByCandidate then partialToolByCandidate[candidate] else FRESH;
      var id, name := Text.Trim(call.id), Text.Trim(call.name);
      if id != "" {
        if current.id != "" && current.id != id { return None; }
        current := current.(id := id);
      }
      if name != "" {
        if current.name != "" && current.name != name { return None; }
        current := current.(name := name);
      }
      ghost var was := current.arguments;
      for i := 0 to |call.partialArgs|
        invariant partialToolByCandidate == old(partialToolByCandidate)
        invariant current.id == Kept(Current(old(partialToolByCandidate), candidate).id, call.id)
        invariant current.name == Kept(Current(old(partialToolByCandidate), candidate).name, call.name)
        invariant AddArgs(was, call.partialArgs[..i], unquote) == Some(current.arguments)
      {
        assert call.partialArgs[..i + 1][..i] == call.partialArgs[..i];
        var updated := AddOne(current.arguments, call.partialArgs[i], unquote);
        if updated.None? {
          AddArgsFail(was, call.partialArgs, i + 1, unquote);
          return None;
        }
        current := current.(arguments := updated.value);
      }
      assert call.partialArgs[..|call.partialArgs|] == call.partialArgs;
      if call.willContinue.Some? && call.willContinue.value {
        partialToolByCandidate := partialToolByCandidate[candidate := current];
        return Some(Waiting);
      }
      if current.name == "" { return None; }
      partialToolByCandidate := partialToolByCandidate - {candidate};
      out := Some(Ready(current));
    }

    static method AddOne(arguments: Json, arg: PartialArg, unquote: ArgumentPath.Unquote) returns (r: Option<Json>)
      ensures r == AddArg(arguments, arg, unquote)
    {
      hide ArgumentPath.Parse;
      var path := ArgumentPath.ParsePath(arg.jsonPath, unquote);
      if path.None? { return None; }
      match arg.value
      case NoValue => r := Some(arguments);
      case StringValue(text) => r := Set(arguments, path.value, Str(text), true);
      case OtherValue(value) => r := Set(arguments, path.value, value, false);
    }
  }

  lemma {:induction false} AddArgsFail(j: Json, args: seq<PartialArg>, k: nat, unquote: ArgumentPath.Unquote)
    requires k <= |args| && AddArgs(j, args[..k], unquote).None?
    ensures AddArgs(j, args, unquote).None?
    decreases |args|
  {
    if k < |args| {
      assert args[..|args| - 1][..k] == args[..k];
      AddArgsFail(j, args[..|args| - 1], k, unquote);
    } else {
      assert args[..k] == args;
    }
  }

  // ---- whole calls --------------------------------------------------------------------------------

  /** The updates that partial arguments stand for. */
  function UpdatesOf(args: seq<PartialArg>, unquote: ArgumentPath.Unquote): seq<Update> {
    if args == [] then [] else
      var arg := args[|args| - 1];
      var path := ArgumentPath.Parse(arg.jsonPath, unquote);
      UpdatesOf(args[..|args| - 1], unquote) +
      if path.None? || arg.value.NoValue? then []
      else if arg.value.StringValue? then [Update(path.value, Str(arg.value.text), true)]
      else [Update(path.value, arg.value.value, false)]
  }

  lemma {:induction false} ApplyConcat(j: Json, a: seq<Update>, b: seq<Update>)
    ensures Apply(j, a + b) == if Apply(j, a).None? then None else Apply(Apply(j, a).value, b)
  {
    if b == [] {
      assert a + b == a;
    } else {
      assert (a + b)[..|a + b| - 1] == a + b[..|b| - 1];
      ApplyConcat(j, a, b[..|b| - 1]);
    }
  }

  lemma {:induction false} AddArgsApplies(j: Json, args: seq<PartialArg>, unquote: ArgumentPath.Unquote)
    requires AddArgs(j, args, unquote).Some?
    ensures Apply(j, UpdatesOf(args, unquote)) == AddArgs(j, args, unquote)
  {
    hide ArgumentPath.Parse, Set;
    if args != [] {
      var n := |args| - 1;
      AddArgsApplies(j, args[..n], unquote);
      AddArgApplies(j, UpdatesOf(args[..n], unquote), args[n], unquote);
    }
  }

  lemma AddArgApplies(j: Json, before: seq<Update>, arg: PartialArg, unquote: ArgumentPath.Unquote)
    requires Apply(j, before).Some? && AddArg(Apply(j, before).value, arg, unquote).Some?
    ensures var path := ArgumentPath.Parse(arg.jsonPath, unquote);
            path.Some? &&
            Apply(j, before + if arg.value.NoValue? then []
                              else if arg.value.StringValue? then [Update(path.value, Str(arg.value.text), true)]
                              else [Update(path.value, arg.value.value, false)]) ==
            AddArg(Apply(j, before).value, arg, unquote)
  {
    hide ArgumentPath.Parse, Set;
    var path := ArgumentPath.Parse(arg.jsonPath, unquote).value;
    var last := if arg.value.NoValue? then []
                else if arg.value.StringValue? then [Update(path, Str(arg.value.text), true)]
                else [Update(path, arg.value.value, false)];
    if last == [] {
      assert before + last == before;
    } else {
      assert (before + last)[..|before|] == before;
    }
  }

  lemma {:induction false} UpdatesNeverTargetRoot(args: seq<PartialArg>, unquote: ArgumentPath.Unquote)
    ensures forall k :: 0 <= k < |UpdatesOf(args, unquote)| ==> UpdatesOf(args, unquote)[k].path != []
  {
    if args != [] { UpdatesNeverTargetRoot(args[..|args| - 1], unquote); }
  }

  /** The parts of one call: all but the last announce another. */
  predicate OneCall(parts: seq<FunctionCall>) {
    parts != [] && !Continues(parts[|parts| - 1]) && forall k :: 0 <= k < |parts| - 1 ==> Continues(parts[k])
  }

  /** Parts taken in one after the other; only the last may complete a call. */
  function AppendAll(open: map<int, Open>, candidate: int, parts: seq<FunctionCall>, unquote: ArgumentPath.Unquote)
    : Option<(map<int, Open>, Progress)>
  {
    if parts == [] then Some((open, Waiting)) else
      var before := AppendAll(open, candidate, parts[..|parts| - 1], unquote);
      if before.None? then None else Append(before.value.0, candidate, parts[|parts| - 1], unquote)
  }

  function AllArgs(parts: seq<FunctionCall>): seq<PartialArg> {
    if parts == [] then [] else AllArgs(parts[..|parts| - 1]) + parts[|parts| - 1].partialArgs
  }

  /** The last non-empty id, or name, of the parts; agreement makes it the only one. */
  function IdOf(parts: seq<FunctionCall>): string {
    if parts == [] then "" else Kept(IdOf(parts[..|parts| - 1]), parts[|parts| - 1].id)
  }

  function NameOf(parts: seq<FunctionCall>): string {
    if parts == [] then "" else Kept(NameOf(parts[..|parts| - 1]), parts[|parts| - 1].name)
  }

  lemma {:induction false} UpdatesConcat(a: seq<PartialArg>, b: seq<PartialArg>, unquote: ArgumentPath.Unquote)
    ensures UpdatesOf(a + b, unquote) == UpdatesOf(a, unquote) + UpdatesOf(b, unquote)
  {
    hide ArgumentPath.Parse;
    if b == [] {
      assert a + b == a && UpdatesOf(a, unquote) + [] == UpdatesOf(a, unquote);
    } else {
      assert (a + b)[..|a + b| - 1] == a + b[..|b| - 1];
      UpdatesConcat(a, b[..|b| - 1], unquote);
    }
  }

  lemma {:induction false} PartsGrow(open: map<int, Open>, candidate: int, parts: seq<FunctionCall>,
                                     unquote: ArgumentPath.Unquote)
    requires candidate !in open && parts != [] && (forall k :: 0 <= k < |parts| ==> Continues(parts[k]))
    requires AppendAll(open, candidate, parts, unquote).Some?
    ensures AppendAll(open, candidate, parts, unquote).value.1.Waiting?
    ensures var updates := UpdatesOf(AllArgs(parts), unquote);
            && Apply(FRESH.arguments, updates).Some?
            && AppendAll(open, candidate, parts, unquote).value.0 ==
               open[candidate := Open(IdOf(parts), NameOf(parts), Apply(FRESH.arguments, updates).value)]
  {
    hide Text.Trim, AddArgs, UpdatesOf, Apply;
    var n := |parts| - 1;
    UpdatesConcat(AllArgs(parts[..n]), parts[n].partialArgs, unquote);
    ApplyConcat(FRESH.arguments, UpdatesOf(AllArgs(parts[..n]), unquote), UpdatesOf(parts[n].partialArgs, unquote));
    if n > 0 {
      PartsGrow(open, candidate, parts[..n], unquote);
    } else {
      NoUpdates(unquote);
      assert parts[..0] == [];
    }
    var current := Current(AppendAll(open, candidate, parts[..n], unquote).value.0, candidate);
    AddArgsApplies(current.arguments, parts[n].partialArgs, unquote);
  }

  lemma NoUpdates(unquote: ArgumentPath.Unquote)
    ensures UpdatesOf([], unquote) == [] && Apply(FRESH.arguments, []) == Some(FRESH.arguments)
  {
  }

  /** A call streamed in any number of parts without an error is completed by its last part
      with all its updates applied in order to an empty object, which stays an object, and
      leaves the calls of the other candidates alone. */
  lemma PartsMakeOneCall(open: map<int, Open>, candidate: int, parts: seq<FunctionCall>, unquote: ArgumentPath.Unquote)
    requires candidate !in open && OneCall(parts) && AppendAll(open, candidate, parts, unquote).Some?
    ensures var updates := UpdatesOf(AllArgs(parts), unquote);
            var arguments := Apply(Object(map[]), updates);
            && arguments.Some? && arguments.value.Object? && NameOf(parts) != ""
            && AppendAll(open, candidate, parts, unquote) ==
               Some((open, Ready(Open(IdOf(parts), NameOf(parts), arguments.value))))
  {
    hide Text.Trim, AddArgs, UpdatesOf, Apply;
    var n := |parts| - 1;
    UpdatesConcat(AllArgs(parts[..n]), parts[n].partialArgs, unquote);
    ApplyConcat(FRESH.arguments, UpdatesOf(AllArgs(parts[..n]), unquote), UpdatesOf(parts[n].partialArgs, unquote));
    NoUpdates(unquote);
    if n > 0 {
      PartsGrow(open, candidate, parts[..n], unquote);
    } else {
      assert parts[..0] == [];
    }
    var before := AppendAll(open, candidate, parts[..n], unquote).value.0;
    AddArgsApplies(Current(before, candidate).arguments, parts[n].partialArgs, unquote);
    assert before - {candidate} == open;
    UpdatesNeverTargetRoot(AllArgs(parts), unquote);
    ArgumentsStayObject(FRESH.arguments, UpdatesOf(AllArgs(parts), unquote));
  }

  /** The id of a completed call is one that all its parts agree on. */
  lemma {:induction false} PartsAgreeOnId(open: map<int, Open>, candidate: int, parts: seq<FunctionCall>, k: nat,
                                          unquote: ArgumentPath.Unquote)
    requires candidate !in open && k < |parts| && (forall j :: 0 <= j < |parts| - 1 ==> Continues(parts[j]))
    requires AppendAll(open, candidate, parts, unquote).Some?
    ensures Text.Trim(parts[k].id) == "" || Text.Trim(parts[k].id) == IdOf(parts)
    ensures Text.Trim(parts[k].name) == "" || Text.Trim(parts[k].name) == NameOf(parts)
    decreases |parts|
  {
    hide Text.Trim, AddArgs, Append, UpdatesOf, Apply;
    var n := |parts| - 1;
    if k < n {
      PartsAgreeOnId(open, candidate, parts[..n], k, unquote);
      PartsGrow(open, candidate, parts[..n], unquote);
      assert parts[..n][k] == parts[k];
      AgreedStays(AppendAll(open, candidate, parts[..n], unquote).value.0, candidate, parts[n], unquote);
    }
  }

  lemma AgreedStays(open: map<int, Open>, candidate: int, call: FunctionCall, unquote: ArgumentPath.Unquote)
    requires Append(open, candidate, call, unquote).Some?
    ensures var current := Current(open, candidate);
            && (current.id != "" ==> Kept(current.id, call.id) == current.id)
            && (current.name != "" ==> Kept(current.name, call.name) == current.name)
  {
    hide Text.Trim, AddArgs;
  }
}
