/**
 * The two overlay loops of packages/ai/src/models.ts: a provider's refreshed models laid over its
 * built-in ones, and header overrides laid over base headers up to letter case.
 */
module Overlays {
  import opened Wrappers

  datatype Model = Model(id: nat, body: nat)

  /** Header names compare equal up to case when their lower-case forms are equal. */
  datatype Header = Header(name: nat, lower: nat, value: nat)

  /** The elements with this key, in order. */
  function WithKey<T>(s: seq<T>, key: T -> nat, k: nat): seq<T> {
    if s == [] then []
    else WithKey(s[..|s| - 1], key, k) + if key(s[|s| - 1]) == k then [s[|s| - 1]] else []
  }

  function LastWithKey<T>(s: seq<T>, key: T -> nat, k: nat): Option<T> {
    if s == [] then None
    else if key(s[|s| - 1]) == k then Some(s[|s| - 1])
    else LastWithKey(s[..|s| - 1], key, k)
  }

  const ID: Model -> nat := (m: Model) => m.id
  const LOWER: Header -> nat := (h: Header) => h.lower

  function Ids(models: seq<Model>): (ids: seq<nat>)
    ensures |ids| == |models| && forall i | 0 <= i < |models| :: ids[i] == models[i].id
  {
    seq(|models|, i requires 0 <= i < |models| => models[i].id)
  }

  /** Ids that are not known yet, each where it first appears. */
  function Appearances(models: seq<Model>, known: seq<nat>): seq<nat> {
    if models == [] then []
    else
      var before := Appearances(models[..|models| - 1], known);
      var id := models[|models| - 1].id;
      if id in known || id in before then before else before + [id]
  }

  ghost predicate Distinct(s: seq<nat>) {
    forall i, j | 0 <= i < j < |s| :: s[i] != s[j]
  }

  /** What an id means after an overlay: its last new entry in place of its first old one. */
  function Overlaid(before: seq<Model>, last: Option<Model>): seq<Model> {
    match last
    case None => before
    case Some(m) => [m] + if before == [] then [] else before[1..]
  }

  lemma WithKeyStep<T>(s: seq<T>, x: T, key: T -> nat, k: nat)
    ensures WithKey(s + [x], key, k) == WithKey(s, key, k) + if key(x) == k then [x] else []
  {
    assert (s + [x])[..|s|] == s;
  }

  lemma {:induction false} WithKeySplits<T>(a: seq<T>, b: seq<T>, key: T -> nat, k: nat)
    ensures WithKey(a + b, key, k) == WithKey(a, key, k) + WithKey(b, key, k)
  {
    if b == [] {
      assert a + b == a;
    } else {
      assert (a + b)[..|a + b| - 1] == a + b[..|b| - 1];
      WithKeySplits(a, b[..|b| - 1], key, k);
    }
  }

  lemma {:induction false} NoneWithKey<T>(s: seq<T>, key: T -> nat, k: nat)
    requires forall i | 0 <= i < |s| :: key(s[i]) != k
    ensures WithKey(s, key, k) == []
  {
    if s != [] {
      NoneWithKey(s[..|s| - 1], key, k);
    }
  }

  lemma WithKeyAround<T>(before: seq<T>, x: T, after: seq<T>, key: T -> nat, k: nat)
    ensures WithKey(before + [x] + after, key, k) == WithKey(before, key, k) + (if key(x) == k then [x] else []) + WithKey(after, key, k)
  {
    WithKeySplits(before + [x], after, key, k);
    WithKeyStep(before, x, key, k);
  }

  lemma OverlaidFirst(x: Model, m: Model, rest: seq<Model>)
    ensures Overlaid([] + [x] + rest, Some(m)) == [] + [m] + rest
  {
  }

  lemma ReplaceBetween(before: seq<Model>, x: Model, m: Model, after: seq<Model>, id: nat)
    requires x.id == m.id && forall i | 0 <= i < |before| :: before[i].id != m.id
    ensures WithKey(before + [m] + after, ID, id) ==
      if id == m.id then Overlaid(WithKey(before + [x] + after, ID, id), Some(m)) else WithKey(before + [x] + after, ID, id)
  {
    WithKeyAround(before, x, after, ID, id);
    WithKeyAround(before, m, after, ID, id);
    if id == m.id {
      NoneWithKey(before, ID, id);
      OverlaidFirst(x, m, WithKey(after, ID, id));
    }
  }

  /** Replacing the first entry of an id changes what that id means, and nothing else. */
  lemma ReplaceFirst(models: seq<Model>, n: nat, m: Model, id: nat)
    requires n < |models| && models[n].id == m.id && forall i | 0 <= i < n :: models[i].id != m.id
    ensures WithKey(models[n := m], ID, id) ==
      if id == m.id then Overlaid(WithKey(models, ID, id), Some(m)) else WithKey(models, ID, id)
  {
    var before, after := models[..n], models[n + 1..];
    ReplaceBetween(before, models[n], m, after, id);
    assert models == before + [models[n]] + after;
    assert models[n := m] == before + [m] + after;
  }

  method FindIndex(models: seq<Model>, id: nat) returns (index: Option<nat>)
    ensures match index
      case Some(n) => n < |models| && models[n].id == id && forall i | 0 <= i < n :: models[i].id != id
      case None => forall i | 0 <= i < |models| :: models[i].id != id
  {
    for i := 0 to |models|
      invariant forall j | 0 <= j < i :: models[j].id != id
    {
      if models[i].id == id { return Some(i); }
    }
    return None;
  }

  /** The new entry takes the place of the first one with its id, or the last place. */
  method Overlay(models: seq<Model>, m: Model) returns (merged: seq<Model>)
    ensures forall id ::
      WithKey(merged, ID, id) == if id == m.id then Overlaid(WithKey(models, ID, id), Some(m)) else WithKey(models, ID, id)
    ensures Ids(merged) == if m.id in Ids(models) then Ids(models) else Ids(models) + [m.id]
  {
    var index := FindIndex(models, m.id);
    if index.Some? {
      merged := models[index.value := m];
      forall id ensures WithKey(merged, ID, id) == if id == m.id then Overlaid(WithKey(models, ID, id), Some(m)) else WithKey(models, ID, id) {
        ReplaceFirst(models, index.value, m, id);
      }
      assert Ids(models)[index.value] == m.id && Ids(merged) == Ids(models);
    } else {
      merged := models + [m];
      NoneWithKey(models, ID, m.id);
      forall id ensures WithKey(merged, ID, id) == if id == m.id then Overlaid(WithKey(models, ID, id), Some(m)) else WithKey(models, ID, id) {
        WithKeyStep(models, m, ID, id);
      }
      assert m.id !in Ids(models) && Ids(merged) == Ids(models) + [m.id];
    }
  }

  /** Overlaying twice leaves the later entry. */
  lemma LastWins(before: seq<Model>, models: seq<Model>, m: Model, id: nat)
    ensures LastWithKey(models + [m], ID, id) == if m.id == id then Some(m) else LastWithKey(models, ID, id)
    ensures Overlaid(Overlaid(before, LastWithKey(models, ID, id)), Some(m)) == Overlaid(before, Some(m))
  {
    assert (models + [m])[..|models|] == models;
  }

  /** Each id means its last refreshed entry or else its built-in one. */
  ghost predicate Means(merged: seq<Model>, baseline: seq<Model>, models: seq<Model>) {
    forall id :: WithKey(merged, ID, id) == Overlaid(WithKey(baseline, ID, id), LastWithKey(models, ID, id))
  }

  lemma MeansNext(merged: seq<Model>, baseline: seq<Model>, models: seq<Model>, m: Model, next: seq<Model>)
    requires Means(merged, baseline, models)
    requires forall id ::
      WithKey(next, ID, id) == if id == m.id then Overlaid(WithKey(merged, ID, id), Some(m)) else WithKey(merged, ID, id)
    ensures Means(next, baseline, models + [m])
  {
    forall id
      ensures WithKey(next, ID, id) == Overlaid(WithKey(baseline, ID, id), LastWithKey(models + [m], ID, id))
    {
      LastWins(WithKey(baseline, ID, id), models, m, id);
    }
  }

  /** Built-in order first, then the order of first appearance; nothing is repeated that was not. */
  ghost predicate Listed(ids: seq<nat>, known: seq<nat>, models: seq<Model>) {
    ids == known + Appearances(models, known) && (Distinct(known) ==> Distinct(ids))
  }

  lemma ListedNext(ids: seq<nat>, known: seq<nat>, models: seq<Model>, m: Model)
    requires Listed(ids, known, models)
    ensures Listed(if m.id in ids then ids else ids + [m.id], known, models + [m])
  {
    assert (models + [m])[..|models|] == models;
    var before := Appearances(models, known);
    assert m.id in known + before <==> m.id in known || m.id in before;
    assert known + (before + [m.id]) == known + before + [m.id];
  }

  /**
   * Each id means its last refreshed entry or else its built-in one; built-in order comes first,
   * then the order of first appearance; and ids stay distinct if the built-in ones are.
   */
  method CurrentModels(baseline: seq<Model>, dynamicModels: seq<Model>) returns (merged: seq<Model>)
    ensures forall id :: WithKey(merged, ID, id) == Overlaid(WithKey(baseline, ID, id), LastWithKey(dynamicModels, ID, id))
    ensures Ids(merged) == Ids(baseline) + Appearances(dynamicModels, Ids(baseline))
    ensures Distinct(Ids(baseline)) ==> Distinct(Ids(merged))
  {
    merged := baseline;
    for n := 0 to |dynamicModels|
      invariant Means(merged, baseline, dynamicModels[..n])
      invariant Listed(Ids(merged), Ids(baseline), dynamicModels[..n])
    {
      assert dynamicModels[..n + 1] == dynamicModels[..n] + [dynamicModels[n]];
      var next := Overlay(merged, dynamicModels[n]);
      MeansNext(merged, baseline, dynamicModels[..n], dynamicModels[n], next);
      ListedNext(Ids(merged), Ids(baseline), dynamicModels[..n], dynamicModels[n]);
      merged := next;
    }
    assert dynamicModels[..|dynamicModels|] == dynamicModels;
  }

  /** Deletes every header whose name differs from the given one at most in case. */
  method DropLower(headers: seq<Header>, lower: nat) returns (kept: seq<Header>)
    ensures forall k :: WithKey(kept, LOWER, k) == if k == lower then [] else WithKey(headers, LOWER, k)
  {
    kept := [];
    for i := 0 to |headers|
      invariant forall k :: WithKey(kept, LOWER, k) == if k == lower then [] else WithKey(headers[..i], LOWER, k)
    {
      assert headers[..i + 1][..i] == headers[..i];
      if headers[i].lower != lower {
        forall k ensures WithKey(kept + [headers[i]], LOWER, k) == WithKey(kept, LOWER, k) + if headers[i].lower == k then [headers[i]] else [] {
          WithKeyStep(kept, headers[i], LOWER, k);
        }
        kept := kept + [headers[i]];
      }
    }
    assert headers[..|headers|] == headers;
  }

  /** Each name, up to case, means its last override or else what the base had; an override leaves no second spelling. */
  method MergeHeaders(base: Option<seq<Header>>, override: Option<seq<Header>>) returns (merged: Option<seq<Header>>)
    ensures merged == None <==> base == None && override == None
    ensures merged.Some? ==> forall k ::
      var last := LastWithKey(override.GetOr([]), LOWER, k);
      WithKey(merged.value, LOWER, k) == if last.Some? then [last.value] else WithKey(base.GetOr([]), LOWER, k)
  {
    if base == None && override == None { return None; }
    var result, extra := base.GetOr([]), override.GetOr([]);
    for n := 0 to |extra|
      invariant forall k :: var last := LastWithKey(extra[..n], LOWER, k);
        WithKey(result, LOWER, k) == if last.Some? then [last.value] else WithKey(base.GetOr([]), LOWER, k)
    {
      assert extra[..n + 1][..n] == extra[..n];
      var kept := DropLower(result, extra[n].lower);
      forall k ensures WithKey(kept + [extra[n]], LOWER, k) == WithKey(kept, LOWER, k) + if extra[n].lower == k then [extra[n]] else [] {
        WithKeyStep(kept, extra[n], LOWER, k);
      }
      result := kept + [extra[n]];
    }
    assert extra[..|extra|] == extra;
    return Some(result);
  }
}
