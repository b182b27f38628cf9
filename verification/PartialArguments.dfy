/** Partial function-call arguments of Gemini streams: a JSON tree that is updated at
    paths, a string fragment being appended to the string already there. */
module PartialArguments {
  import opened Basics

  /** Absent and null are the same; numbers are not looked into. */
  datatype Json =
    | Null
    | Bool(flag: bool)
    | Number(text: string)
    | Str(text: string)
    | Array(elements: seq<Json>)
    | Object(members: map<string, Json>)

  datatype Segment = Member(name: string) | Index(index: nat)

  type Path = seq<Segment>

  // ---- reading ------------------------------------------------------------------------

  /** What a segment selects; nothing is null. */
  function Child(j: Json, segment: Segment): Json {
    match segment
    case Member(name) => if j.Object? && name in j.members then j.members[name] else Null
    case Index(i) => if j.Array? && i < |j.elements| then j.elements[i] else Null
  }

  function Get(j: Json, path: Path): Json
    decreases |path|
  {
    if path == [] then j else Get(Child(j, path[0]), path[1..])
  }

  // ---- writing --------------------------------------------------------------------------

  function Nulls(n: nat): (s: seq<Json>)
    ensures |s| == n && forall i :: 0 <= i < n ==> s[i] == Null
  {
    seq(n, i => Null)
  }

  /** An array long enough for an index. */
  function Stretched(elements: seq<Json>, index: nat): (s: seq<Json>)
    ensures index < |s| && elements <= s && forall i :: |elements| <= i < |s| ==> s[i] == Null
  {
    if |elements| <= index then elements + Nulls(index - |elements| + 1) else elements
  }

  /** Whether a value has room for a segment: nothing is there, or a container of its kind. */
  predicate Fits(j: Json, segment: Segment) {
    j.Null? || (if segment.Member? then j.Object? else j.Array?)
  }

  function WithChild(j: Json, segment: Segment, child: Json): Json
    requires Fits(j, segment)
  {
    match segment
    case Member(name) => Object((if j.Object? then j.members else map[])[name := child])
    case Index(i) => Array(Stretched(if j.Array? then j.elements else [], i)[i := child])
  }

  /** The value at the end of the path. */
  function Renewed(old_: Json, value: Json, append: bool): Json {
    if append && old_.Str? && value.Str? then Str(old_.text + value.text) else value
  }

  /** setGeminiPartialArgValue; None when the path leads through a value of another kind. */
  function Set(j: Json, path: Path, value: Json, append: bool): Option<Json>
    decreases |path|
  {
    if path == [] then Some(Renewed(j, value, append))
    else if !Fits(j, path[0]) then None
    else
      var child := Set(Child(j, path[0]), path[1..], value, append);
      if child.None? then None else Some(WithChild(j, path[0], child.value))
  }

  // ---- the lens laws ---------------------------------------------------------------------

  lemma ChildOfWith(j: Json, segment: Segment, child: Json, other: Segment)
    requires Fits(j, segment)
    ensures Child(WithChild(j, segment, child), other) == if other == segment then child else Child(j, other)
  {
  }

  /** A set succeeds exactly when every step of the path finds nothing or a container of its kind. */
  lemma {:induction false} SetSucceeds(j: Json, path: Path, value: Json, append: bool)
    ensures Set(j, path, value, append).Some? <==>
            forall k :: 0 <= k < |path| ==> Fits(Get(j, path[..k]), path[k])
    decreases |path|
  {
    if path != [] {
      SetSucceeds(Child(j, path[0]), path[1..], value, append);
      assert Get(j, path[..0]) == j;
      assert forall k :: 0 < k < |path| ==> path[..k][0] == path[0] && path[..k][1..] == path[1..][..k - 1];
      if Set(j, path, value, append).Some? {
        forall k | 0 <= k < |path| ensures Fits(Get(j, path[..k]), path[k]) {
          if k > 0 { assert path[k] == path[1..][k - 1]; }
        }
      } else if Fits(j, path[0]) {
        var k :| 0 <= k < |path[1..]| && !Fits(Get(Child(j, path[0]), path[1..][..k]), path[1..][k]);
        assert path[..k + 1][1..] == path[1..][..k];
      }
    }
  }

  /** The path reads back the new value, or the old string with the fragment appended. */
  lemma {:induction false} SetThenGet(j: Json, path: Path, value: Json, append: bool)
    requires Set(j, path, value, append).Some?
    ensures Get(Set(j, path, value, append).value, path) == Renewed(Get(j, path), value, append)
    decreases |path|
  {
    if path != [] {
      SetThenGet(Child(j, path[0]), path[1..], value, append);
      ChildOfWith(j, path[0], Set(Child(j, path[0]), path[1..], value, append).value, path[0]);
    }
  }

  /** Neither path leads to the other. */
  predicate Independent(p: Path, q: Path) { !(p <= q) && !(q <= p) }

  lemma IndependentTails(p: Path, q: Path)
    requires Independent(p, q)
    ensures p != [] && q != []
    ensures p[0] == q[0] ==> Independent(p[1..], q[1..])
  {
    if p[0] == q[0] {
      assert p == [p[0]] + p[1..] && q == [q[0]] + q[1..];
    }
  }

  /** Every path that is neither a prefix nor an extension reads what it read before. */
  lemma {:induction false} SetKeepsOthers(j: Json, path: Path, value: Json, append: bool, other: Path)
    requires Set(j, path, value, append).Some? && Independent(path, other)
    ensures Get(Set(j, path, value, append).value, other) == Get(j, other)
    decreases |path|
  {
    IndependentTails(path, other);
    var child := Set(Child(j, path[0]), path[1..], value, append).value;
    ChildOfWith(j, path[0], child, other[0]);
    if path[0] == other[0] {
      SetKeepsOthers(Child(j, path[0]), path[1..], value, append, other[1..]);
    }
  }

  function Then(first: Option<Json>, path: Path, value: Json, append: bool): Option<Json> {
    if first.None? then None else Set(first.value, path, value, append)
  }

  lemma WithOther(j: Json, s: Segment, x: Json, t: Segment, y: Json)
    requires s != t && Fits(j, s) && Fits(j, t)
    ensures Fits(WithChild(j, s, x), t) == Fits(WithChild(j, t, y), s) == (s.Member? == t.Member?)
    ensures s.Member? == t.Member? ==> WithChild(WithChild(j, s, x), t, y) == WithChild(WithChild(j, t, y), s, x)
  {
    if s.Index? && t.Index? {
      var a, b := WithChild(WithChild(j, s, x), t, y), WithChild(WithChild(j, t, y), s, x);
      assert a.elements == b.elements;
    } else if s.Member? && t.Member? {
      var a, b := WithChild(WithChild(j, s, x), t, y), WithChild(WithChild(j, t, y), s, x);
      assert a.members == b.members;
    }
  }

  lemma WithTwice(j: Json, s: Segment, x: Json, y: Json)
    requires Fits(j, s)
    ensures Fits(WithChild(j, s, x), s) && WithChild(WithChild(j, s, x), s, y) == WithChild(j, s, y)
  {
    match s
    case Index(i) => assert WithChild(WithChild(j, s, x), s, y).elements == WithChild(j, s, y).elements;
    case Member(name) => assert WithChild(WithChild(j, s, x), s, y).members == WithChild(j, s, y).members;
  }

  /** Where a set that began with one segment goes on with another. */
  lemma SetAfter(j: Json, s: Segment, x: Json, q: Path, w: Json, b: bool)
    requires q != [] && Fits(j, s) && q[0] != s
    ensures var child := Set(Child(j, q[0]), q[1..], w, b);
            Set(WithChild(j, s, x), q, w, b) ==
            if !Fits(WithChild(j, s, x), q[0]) || child.None? then None
            else Some(WithChild(WithChild(j, s, x), q[0], child.value))
  {
    hide Child, WithChild, Fits;
    ChildOfWith(j, s, x, q[0]);
  }

  lemma SetIs(j: Json, p: Path, v: Json, a: bool)
    requires p != []
    ensures var child := Set(Child(j, p[0]), p[1..], v, a);
            Set(j, p, v, a) == if !Fits(j, p[0]) || child.None? then None else Some(WithChild(j, p[0], child.value))
  {
  }

  lemma FitsKinds(j: Json, s: Segment, x: Json, t: Segment)
    requires Fits(j, s)
    ensures Fits(WithChild(j, s, x), t) == (s.Member? == t.Member?)
    ensures !Fits(j, t) ==> s.Member? != t.Member?
  {
  }

  /** What two updates below different segments come to. */
  function Both(j: Json, s: Segment, x: Option<Json>, t: Segment, y: Option<Json>): Option<Json> {
    if !Fits(j, s) || x.None? || y.None? || !Fits(WithChild(j, s, x.value), t) then None
    else Some(WithChild(WithChild(j, s, x.value), t, y.value))
  }

  /** An update below one segment, when what is below it becomes x. */
  function Below(j: Json, s: Segment, x: Option<Json>): Option<Json> {
    if !Fits(j, s) || x.None? then None else Some(WithChild(j, s, x.value))
  }

  lemma ThenOther(j: Json, s: Segment, x: Option<Json>, q: Path, w: Json, b: bool)
    requires q != [] && q[0] != s
    ensures Then(Below(j, s, x), q, w, b) == Both(j, s, x, q[0], Set(Child(j, q[0]), q[1..], w, b))
  {
    hide Set, Child, WithChild, Fits;
    if Fits(j, s) && x.Some? {
      SetAfter(j, s, x.value, q, w, b);
    }
  }

  lemma ThenIsBoth(j: Json, p: Path, v: Json, a: bool, q: Path, w: Json, b: bool)
    requires p != [] && q != [] && p[0] != q[0]
    ensures Then(Set(j, p, v, a), q, w, b)
         == Both(j, p[0], Set(Child(j, p[0]), p[1..], v, a), q[0], Set(Child(j, q[0]), q[1..], w, b))
  {
    hide Set, Child, WithChild, Fits, Then, Both;
    var x := Set(Child(j, p[0]), p[1..], v, a);
    SetIs(j, p, v, a);
    assert Set(j, p, v, a) == Below(j, p[0], x);
    ThenOther(j, p[0], x, q, w, b);
  }

  lemma BothCommute(j: Json, s: Segment, x: Option<Json>, t: Segment, y: Option<Json>)
    requires s != t
    ensures Both(j, s, x, t, y) == Both(j, t, y, s, x)
  {
    hide WithChild, Fits;
    if x.Some? && y.Some? {
      if Fits(j, s) { FitsKinds(j, s, x.value, t); }
      if Fits(j, t) { FitsKinds(j, t, y.value, s); }
      if Fits(j, s) && Fits(j, t) { WithOther(j, s, x.value, t, y.value); }
    }
  }

  lemma DifferentSegmentsCommute(j: Json, p: Path, v: Json, a: bool, q: Path, w: Json, b: bool)
    requires p != [] && q != [] && p[0] != q[0]
    ensures Then(Set(j, p, v, a), q, w, b) == Then(Set(j, q, w, b), p, v, a)
  {
    hide Set, Child, Then, Both;
    ThenIsBoth(j, p, v, a, q, w, b);
    ThenIsBoth(j, q, w, b, p, v, a);
    BothCommute(j, p[0], Set(Child(j, p[0]), p[1..], v, a), q[0], Set(Child(j, q[0]), q[1..], w, b));
  }

  /** Updates at independent paths commute, failures included. */
  lemma {:induction false} SetsCommute(j: Json, p: Path, v: Json, a: bool, q: Path, w: Json, b: bool)
    requires Independent(p, q)
    ensures Then(Set(j, p, v, a), q, w, b) == Then(Set(j, q, w, b), p, v, a)
    decreases |p|
  {
    hide Set, Child, WithChild, Fits, Then;
    IndependentTails(p, q);
    if p[0] == q[0] {
      SetsCommute(Child(j, p[0]), p[1..], v, a, q[1..], w, b);
      SameChild(j, p, v, a, q, w, b);
      SameChild(j, q, w, b, p, v, a);
    } else {
      DifferentSegmentsCommute(j, p, v, a, q, w, b);
    }
  }

  /** Two updates below one segment are two updates of its child. */
  lemma SameChild(j: Json, p: Path, v: Json, a: bool, q: Path, w: Json, b: bool)
    requires p != [] && q != [] && p[0] == q[0]
    ensures var both := Then(Set(Child(j, p[0]), p[1..], v, a), q[1..], w, b);
            Then(Set(j, p, v, a), q, w, b) == if !Fits(j, p[0]) || both.None? then None
              else Some(WithChild(j, p[0], both.value))
  {
    hide Set, Child, WithChild, Fits;
    SetIs(j, p, v, a);
    var first := Set(Child(j, p[0]), p[1..], v, a);
    if Fits(j, p[0]) && first.Some? {
      ChildOfWith(j, p[0], first.value, p[0]);
      SetIs(WithChild(j, p[0], first.value), q, w, b);
      WithTwice(j, p[0], first.value, Null);
      var second := Set(first.value, q[1..], w, b);
      if second.Some? { WithTwice(j, p[0], first.value, second.value); }
    }
  }

  // ---- whole calls -------------------------------------------------------------------------

  /** One partial argument that carries a value; append for a string value. */
  datatype Update = Update(path: Path, value: Json, append: bool)

  function Apply(j: Json, updates: seq<Update>): Option<Json> {
    if updates == [] then Some(j) else
      var before, u := Apply(j, updates[..|updates| - 1]), updates[|updates| - 1];
      if before.None? then None else Set(before.value, u.path, u.value, u.append)
  }

  /** The updates of one path, applied to one value. */
  function Gathered(v: Json, updates: seq<Update>, path: Path): Json {
    if updates == [] then v else
      var before, u := Gathered(v, updates[..|updates| - 1], path), updates[|updates| - 1];
      if u.path == path then Renewed(before, u.value, u.append) else before
  }

  /** After any number of updates a path that none of them crosses holds what its own
      updates gather: fragments in order, as if nothing else had arrived. */
  lemma {:induction false} PathGathers(j: Json, updates: seq<Update>, path: Path)
    requires Apply(j, updates).Some?
    requires forall k :: 0 <= k < |updates| ==> updates[k].path == path || Independent(updates[k].path, path)
    ensures Get(Apply(j, updates).value, path) == Gathered(Get(j, path), updates, path)
  {
    if updates != [] {
      var n := |updates| - 1;
      PathGathers(j, updates[..n], path);
      var before := Apply(j, updates[..n]).value;
      if updates[n].path == path {
        SetThenGet(before, path, updates[n].value, updates[n].append);
      } else {
        SetKeepsOthers(before, updates[n].path, updates[n].value, updates[n].append, path);
      }
    }
  }

  /** The arguments stay an object, since no path targets the root: the program's check
      for a replaced arguments object never fires. */
  lemma {:induction false} ArgumentsStayObject(j: Json, updates: seq<Update>)
    requires j.Object? && Apply(j, updates).Some?
    requires forall k :: 0 <= k < |updates| ==> updates[k].path != []
    ensures Apply(j, updates).value.Object?
  {
    if updates != [] {
      ArgumentsStayObject(j, updates[..|updates| - 1]);
    }
  }
}
