/** The array operations the reporters use: `find`, `map` and `join`. */
module JsArray {
  import opened Js

  /** `i` is the first index of `s` whose element satisfies `p`. */
  predicate IsFirstMatch<T>(s: seq<T>, p: T -> bool, i: int) {
    0 <= i < |s| && p(s[i]) && forall j :: 0 <= j < i ==> !p(s[j])
  }

  /** `findIndex`: the first index whose element satisfies `p`, `None`
      when no element does. */
  function FindIndex<T>(s: seq<T>, p: T -> bool): (r: Option<nat>)
    ensures r.Some? ==> IsFirstMatch(s, p, r.value)
    ensures r.None? ==> forall j :: 0 <= j < |s| ==> !p(s[j])
  {
    if |s| == 0 then None
    else if p(s[0]) then Some(0)
    else match FindIndex(s[1..], p)
      case None => None
      case Some(i) => Some(i + 1)
  }

  /** `find`: the element at the first index that satisfies `p`; `None`
      (JavaScript's `undefined`) exactly when no element does. */
  function Find<T>(s: seq<T>, p: T -> bool): (r: Option<T>)
    ensures r.None? <==> forall j :: 0 <= j < |s| ==> !p(s[j])
    ensures forall i :: IsFirstMatch(s, p, i) ==> r == Some(s[i])
  {
    match FindIndex(s, p)
    case None => None
    case Some(i) => Some(s[i])
  }

  /** `map`: one result per element, in the elements' order. */
  function Map<A, B>(f: A -> B, s: seq<A>): (r: seq<B>)
    ensures |r| == |s|
    ensures forall i :: 0 <= i < |s| ==> r[i] == f(s[i])
  {
    if |s| == 0 then [] else [f(s[0])] + Map(f, s[1..])
  }

  /** Mapping a list extended by one element extends the result by the
      image of that element. */
  lemma MapAppendOne<A, B>(f: A -> B, s: seq<A>, x: A)
    ensures Map(f, s + [x]) == Map(f, s) + [f(x)]
  {
    var lhs, rhs := Map(f, s + [x]), Map(f, s) + [f(x)];
    assert |lhs| == |rhs|;
    forall i | 0 <= i < |lhs|
      ensures lhs[i] == rhs[i]
    {
      assert (s + [x])[i] == if i < |s| then s[i] else x;
    }
  }

  /** The images of the first `k` elements, built one element at a time
      from the front, as a loop appending to an output array builds them. */
  function MapPrefix<A, B>(f: A -> B, s: seq<A>, k: nat): seq<B>
    requires k <= |s|
  {
    if k == 0 then [] else MapPrefix(f, s, k - 1) + [f(s[k - 1])]
  }

  /** Building the images one element at a time gives the map of the prefix. */
  lemma {:induction false} MapPrefixIsMap<A, B>(f: A -> B, s: seq<A>, k: nat)
    requires k <= |s|
    ensures MapPrefix(f, s, k) == Map(f, s[..k])
  {
    if k > 0 {
      MapPrefixIsMap(f, s, k - 1);
      MapAppendOne(f, s[..k - 1], s[k - 1]);
      assert s[..k] == s[..k - 1] + [s[k - 1]];
    }
  }

  /** `join(sep)`: the elements in order with `sep` between neighbours. */
  function Join(parts: seq<string>, sep: string): string {
    if |parts| == 0 then ""
    else if |parts| == 1 then parts[0]
    else parts[0] + sep + Join(parts[1..], sep)
  }

  /** The non-empty elements of `parts`, in order. */
  function NonEmpty(parts: seq<string>): seq<string> {
    if |parts| == 0 then []
    else (if parts[0] == "" then [] else [parts[0]]) + NonEmpty(parts[1..])
  }

  /** The non-empty parts joined by `sep`: the separator appears only
      between two parts that are both present. */
  function JoinPresent(parts: seq<string>, sep: string): string {
    Join(NonEmpty(parts), sep)
  }

  /** For two parts, `JoinPresent` is the pair joined by `sep` when both
      are non-empty and whichever one is present otherwise. */
  lemma JoinPresentPair(a: string, b: string, sep: string)
    ensures JoinPresent([a, b], sep) == if a != "" && b != "" then a + sep + b else a + b
  {
    assert [a, b][1..] == [b];
    assert [b][1..] == [];
    var first := if a == "" then [] else [a];
    var second := if b == "" then [] else [b];
    assert NonEmpty([b]) == second + NonEmpty([]);
    assert NonEmpty([a, b]) == first + second;
    if a != "" && b != "" {
      assert first + second == [a, b];
      assert Join([a, b], sep) == a + sep + Join([b], sep);
    }
  }
}
