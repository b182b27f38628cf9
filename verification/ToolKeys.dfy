/** The keys under which a Responses stream's tool calls are known, in the order in
    which the finalizer goes through them. */
module ToolKeys {
  import Text

  /** Keys are strings in the program; these are the three forms it makes. */
  datatype Key = OutputKey(index: int) | ItemKey(id: string) | CallKey(id: string) {
    function Render(): string {
      match this
      case OutputKey(index) => "output:" + Text.SignedDecimal(index)
      case ItemKey(id) => "item:" + id
      case CallKey(id) => "call:" + id
    }
  }

  /** Different keys are different strings. */
  lemma RenderInjective(a: Key, b: Key)
    requires a.Render() == b.Render()
    ensures a == b
  {
    assert a.Render()[0] == b.Render()[0];
    match a
    case OutputKey(i) =>
      assert a.Render()[7..] == Text.SignedDecimal(i) && b.Render()[7..] == Text.SignedDecimal(b.index);
      Text.SignedDecimalInjective(i, b.index);
    case ItemKey(id) => assert a.Render()[5..] == id && b.Render()[5..] == b.id;
    case CallKey(id) => assert a.Render()[5..] == id && b.Render()[5..] == b.id;
  }

  /** Lexicographic order on strings. */
  predicate AtMost(a: string, b: string) {
    a == "" || (b != "" && (a[0] < b[0] || (a[0] == b[0] && AtMost(a[1..], b[1..]))))
  }

  lemma {:induction false} AtMostTotal(a: string, b: string)
    ensures AtMost(a, b) || AtMost(b, a)
    ensures AtMost(a, b) && AtMost(b, a) ==> a == b
  {
    if a != "" && b != "" {
      AtMostTotal(a[1..], b[1..]);
      assert a == [a[0]] + a[1..] && b == [b[0]] + b[1..];
    }
  }

  lemma {:induction false} AtMostTransitive(a: string, b: string, c: string)
    requires AtMost(a, b) && AtMost(b, c)
    ensures AtMost(a, c)
  {
    if a != "" && a[0] == b[0] == c[0] {
      AtMostTransitive(a[1..], b[1..], c[1..]);
    }
  }

  predicate Before(a: Key, b: Key) { AtMost(a.Render(), b.Render()) }

  predicate Least(k: Key, keys: set<Key>) { k in keys && forall j :: j in keys ==> Before(k, j) }

  lemma {:induction false} LeastExists(keys: set<Key>)
    requires keys != {}
    ensures exists k :: Least(k, keys)
  {
    var j :| j in keys;
    AtMostTotal(j.Render(), j.Render());
    if keys == {j} {
      assert Least(j, keys);
    } else {
      var rest := keys - {j};
      assert keys == rest + {j};
      LeastExists(rest);
      var m :| Least(m, rest);
      AtMostTotal(j.Render(), m.Render());
      if Before(m, j) {
        assert Least(m, keys);
      } else {
        forall i | i in rest ensures Before(j, i) { AtMostTransitive(j.Render(), m.Render(), i.Render()); }
        assert Least(j, keys);
      }
    }
  }

  lemma LeastUnique(a: Key, b: Key, keys: set<Key>)
    requires Least(a, keys) && Least(b, keys)
    ensures a == b
  {
    AtMostTotal(a.Render(), b.Render());
    RenderInjective(a, b);
  }

  /** sort.Strings over the keys of a set. */
  ghost function Sorted(keys: set<Key>): (s: seq<Key>)
    ensures forall k :: k in s <==> k in keys
    decreases |keys|
  {
    if keys == {} then [] else
      LeastExists(keys);
      var k :| Least(k, keys);
      [k] + Sorted(keys - {k})
  }

  lemma SortedStep(keys: set<Key>, k: Key)
    requires Least(k, keys)
    ensures Sorted(keys) == [k] + Sorted(keys - {k})
  {
    var j :| Sorted(keys) == [j] + Sorted(keys - {j}) && Least(j, keys);
    LeastUnique(j, k, keys);
  }

  lemma SortedNothing()
    ensures Sorted({}) == []
  {
  }

  /** Sorting by repeated selection. */
  method Sort(keys: set<Key>) returns (sorted: seq<Key>)
    ensures sorted == Sorted(keys)
  {
    hide Sorted, Least;
    sorted := [];
    var rest := keys;
    assert [] + Sorted(keys) == Sorted(keys);
    while rest != {}
      invariant sorted + Sorted(rest) == Sorted(keys)
      decreases |rest|
    {
      var k := Select(rest);
      SortedStep(rest, k);
      LeastIn(k, rest);
      assert sorted + ([k] + Sorted(rest - {k})) == (sorted + [k]) + Sorted(rest - {k});
      sorted := sorted + [k];
      rest := rest - {k};
    }
    SortedNothing();
    assert sorted + [] == sorted;
  }

  lemma LeastIn(k: Key, keys: set<Key>)
    requires Least(k, keys)
    ensures k in keys
  {
  }

  method Select(keys: set<Key>) returns (k: Key)
    requires keys != {}
    ensures Least(k, keys)
  {
    k :| k in keys;
    var rest := keys - {k};
    var seen: set<Key> := {k};
    AtMostTotal(k.Render(), k.Render());
    while rest != {}
      invariant Least(k, seen) && seen + rest == keys
      decreases |rest|
    {
      var j :| j in rest;
      AtMostTotal(j.Render(), k.Render());
      AtMostTotal(j.Render(), j.Render());
      if Before(j, k) {
        forall i | i in seen ensures Before(j, i) { AtMostTransitive(j.Render(), k.Render(), i.Render()); }
        k := j;
      }
      seen := seen + {j};
      rest := rest - {j};
    }
  }
}
