/** The key resolver `findValueByKey` (index.js:50-65): a case-insensitive
    search for the first of several candidate labels in a nested JSON value. */
module KeyResolver {
  import opened Text
  import opened JsonValue

  /** The side table `normalizedObj`: every key lower-cased, in enumeration
      order, so that of two keys that lower-case alike the later one wins. */
  function Normalize(fs: seq<(string, Json)>): (m: map<string, Json>)
    ensures m.Keys == set i | 0 <= i < |fs| :: Lower(fs[i].0)
  {
    if fs == [] then map[]
    else
      var init := fs[..|fs| - 1];
      var m := Normalize(init)[Lower(fs[|fs| - 1].0) := fs[|fs| - 1].1];
      m
  }

  /** `normalizedObj[label.toLowerCase()]` is truthy. */
  predicate DirectHit(norm: map<string, Json>, name: string) {
    Lower(name) in norm && Truthy(norm[Lower(name)])
  }

  /** The first candidate, in the caller's priority order, that hits the side table. */
  function FirstDirect(norm: map<string, Json>, labels: seq<string>): (r: Option<Json>)
    ensures r.Some? ==> Truthy(r.value)
  {
    if labels == [] then None
    else if DirectHit(norm, labels[0]) then Some(norm[Lower(labels[0])])
    else FirstDirect(norm, labels[1..])
  }

  /** The direct lookup finds something exactly when some candidate hits,
      and then it is the value of the earliest candidate that hits. */
  lemma {:induction false} FirstDirectMeaning(norm: map<string, Json>, labels: seq<string>)
    ensures FirstDirect(norm, labels).None? <==> forall k :: 0 <= k < |labels| ==> !DirectHit(norm, labels[k])
    ensures FirstDirect(norm, labels).Some? ==>
              exists k :: 0 <= k < |labels| && DirectHit(norm, labels[k])
                && FirstDirect(norm, labels).value == norm[Lower(labels[k])]
                && forall m :: 0 <= m < k ==> !DirectHit(norm, labels[m])
  {
    if labels != [] && !DirectHit(norm, labels[0]) {
      FirstDirectMeaning(norm, labels[1..]);
      var r := FirstDirect(norm, labels);
      assert r == FirstDirect(norm, labels[1..]);
      if r.Some? {
        var k :| 0 <= k < |labels[1..]| && DirectHit(norm, labels[1..][k])
                 && r.value == norm[Lower(labels[1..][k])]
                 && forall m :: 0 <= m < k ==> !DirectHit(norm, labels[1..][m]);
        assert labels[k + 1] == labels[1..][k];
        forall m | 0 <= m < k + 1 ensures !DirectHit(norm, labels[m]) {
          if m > 0 { assert labels[m] == labels[1..][m - 1]; }
        }
      } else {
        forall k | 0 <= k < |labels| ensures !DirectHit(norm, labels[k]) {
          if k > 0 { assert labels[k] == labels[1..][k - 1]; }
        }
      }
    }
  }

  /** `findValueByKey(j, labels)`, with `Null` for JavaScript's `null`.
      A falsy or non-object input gives `Null`; otherwise a direct match at
      this level, else the first truthy result among object-typed children. */
  function Resolve(j: Json, labels: seq<string>): (r: Json)
    ensures r.Null? || Truthy(r)
    ensures !Truthy(j) || !IsObject(j) ==> r.Null?
    decreases j, 1
  {
    if !Truthy(j) || !IsObject(j) then Null
    else
      match FirstDirect(Normalize(Fields(j)), labels)
      case Some(v) => v
      case None => FirstNested(j, 0, labels)
  }

  /** The third loop of `findValueByKey`, from the child at position `i` on. */
  function FirstNested(j: Json, i: nat, labels: seq<string>): (r: Json)
    requires i <= |Fields(j)|
    ensures r.Null? || Truthy(r)
    decreases j, 0, |Fields(j)| - i
  {
    if i == |Fields(j)| then Null
    else
      var child := Fields(j)[i].1;
      var found := if IsObject(child) then Resolve(child, labels) else Null;
      if Truthy(found) then found else FirstNested(j, i + 1, labels)
  }

  /** The imperative resolver: builds the lower-cased side table with a
      loop, tries the candidates in order, then recurses into object-typed
      children, returning early on the first hit. */
  method FindValueByKey(obj: Json, keysToFind: seq<string>) returns (r: Json)
    ensures r == Resolve(obj, keysToFind)
    decreases obj
  {
    if !Truthy(obj) || !IsObject(obj) {
      return Null;
    }
    var fields := Fields(obj);
    var normalizedObj: map<string, Json> := map[];
    for i := 0 to |fields|
      invariant normalizedObj == Normalize(fields[..i])
    {
      assert fields[..i + 1][..i] == fields[..i];
      normalizedObj := normalizedObj[Lower(fields[i].0) := fields[i].1];
    }
    assert fields[..|fields|] == fields;
    for k := 0 to |keysToFind|
      invariant FirstDirect(normalizedObj, keysToFind) == FirstDirect(normalizedObj, keysToFind[k..])
    {
      var key := Lower(keysToFind[k]);
      if key in normalizedObj && Truthy(normalizedObj[key]) {
        return normalizedObj[key];
      }
      assert keysToFind[k..][1..] == keysToFind[k + 1..];
    }
    for c := 0 to |fields|
      invariant FirstNested(obj, 0, keysToFind) == FirstNested(obj, c, keysToFind)
    {
      if IsObject(fields[c].1) {
        var found := FindValueByKey(fields[c].1, keysToFind);
        if Truthy(found) {
          return found;
        }
      }
    }
    return Null;
  }

  /** The side table holds, for a lower-cased key, the value of the LAST
      key in enumeration order that lower-cases to it. */
  lemma {:induction false} NormalizeLast(fs: seq<(string, Json)>, i: nat)
    requires i < |fs|
    requires forall m :: i < m < |fs| ==> Lower(fs[m].0) != Lower(fs[i].0)
    ensures Lower(fs[i].0) in Normalize(fs)
    ensures Normalize(fs)[Lower(fs[i].0)] == fs[i].1
  {
    if i < |fs| - 1 {
      var init := fs[..|fs| - 1];
      assert init[i] == fs[i];
      forall m | i < m < |init| ensures Lower(init[m].0) != Lower(init[i].0) {
        assert init[m] == fs[m];
      }
      NormalizeLast(init, i);
    }
  }

  /** Two keys at one level that differ only in case: the later one decides
      the lookup, and when its value is falsy the label does not match at this
      level even if the earlier value was truthy. */
  lemma CaseVariantShadowing(fs: seq<(string, Json)>, i: nat, m: nat, name: string)
    requires i < m < |fs|
    requires Lower(fs[i].0) == Lower(name) && Lower(fs[m].0) == Lower(name)
    requires forall n :: m < n < |fs| ==> Lower(fs[n].0) != Lower(name)
    ensures Normalize(fs)[Lower(name)] == fs[m].1
    ensures DirectHit(Normalize(fs), name) <==> Truthy(fs[m].1)
  {
    NormalizeLast(fs, m);
  }

  /** A concrete case of the shadowing: a truthy "Drums" followed by an empty
      "drums" resolves to nothing. */
  lemma ShadowedDrumsExample()
    ensures Resolve(Obj([("Drums", Str("kick.mp3")), ("drums", Str(""))]), ["drums"]) == Null
  {
    var fs := [("Drums", Str("kick.mp3")), ("drums", Str(""))];
    assert Lower("Drums") == "drums" && Lower("drums") == "drums";
    CaseVariantShadowing(fs, 0, 1, "drums");
    assert Fields(Obj(fs)) == fs;
    assert FirstNested(Obj(fs), 2, ["drums"]) == Null;
    assert FirstNested(Obj(fs), 1, ["drums"]) == Null;
  }

  /** A direct match at the current level beats any nested match, and among
      direct matches the earliest candidate in the list wins. */
  lemma DirectMatchWins(j: Json, labels: seq<string>, k: nat)
    requires Truthy(j) && IsObject(j)
    requires k < |labels| && DirectHit(Normalize(Fields(j)), labels[k])
    requires forall m :: 0 <= m < k ==> !DirectHit(Normalize(Fields(j)), labels[m])
    ensures Resolve(j, labels) == Normalize(Fields(j))[Lower(labels[k])]
  {
    var norm := Normalize(Fields(j));
    var r := FirstDirect(norm, labels);
    FirstDirectMeaning(norm, labels);
    var k' :| 0 <= k' < |labels| && DirectHit(norm, labels[k']) && r.value == norm[Lower(labels[k'])]
              && forall m :: 0 <= m < k' ==> !DirectHit(norm, labels[m]);
    assert k' == k;
  }

  /** Lower-cased keys that are pairwise distinct: a JSON object's own keys
      when no two differ only in case. */
  predicate DistinctLowered(fs: seq<(string, Json)>) {
    forall a, b :: 0 <= a < b < |fs| ==> Lower(fs[a].0) != Lower(fs[b].0)
  }

  /** When no two keys differ only in case, the direct lookup does not depend
      on the order in which the keys are enumerated. */
  lemma NormalizeIgnoresOrder(fs1: seq<(string, Json)>, fs2: seq<(string, Json)>, labels: seq<string>)
    requires DistinctLowered(fs1) && DistinctLowered(fs2)
    requires forall p :: p in fs1 <==> p in fs2
    ensures Normalize(fs1) == Normalize(fs2)
    ensures FirstDirect(Normalize(fs1), labels) == FirstDirect(Normalize(fs2), labels)
  {
    forall key | key in Normalize(fs1)
      ensures key in Normalize(fs2) && Normalize(fs2)[key] == Normalize(fs1)[key]
    {
      var i :| 0 <= i < |fs1| && Lower(fs1[i].0) == key;
      NormalizeLast(fs1, i);
      assert fs1[i] in fs2;
      var i2 :| 0 <= i2 < |fs2| && fs2[i2] == fs1[i];
      NormalizeLast(fs2, i2);
    }
    forall key | key in Normalize(fs2) ensures key in Normalize(fs1) {
      var i2 :| 0 <= i2 < |fs2| && Lower(fs2[i2].0) == key;
      assert fs2[i2] in fs1;
      var i :| 0 <= i < |fs1| && fs1[i] == fs2[i2];
    }
  }

  /** The child at position `c` is object-typed and resolves to something. */
  ghost predicate ChildHit(j: Json, c: nat, labels: seq<string>)
    requires c < |Fields(j)|
  {
    IsObject(Fields(j)[c].1) && !Resolve(Fields(j)[c].1, labels).Null?
  }

  lemma {:induction false} FirstNestedMeaning(j: Json, i: nat, labels: seq<string>)
    requires i <= |Fields(j)|
    ensures FirstNested(j, i, labels).Null? <==>
              forall c :: i <= c < |Fields(j)| ==> !ChildHit(j, c, labels)
    ensures !FirstNested(j, i, labels).Null? ==>
              exists c :: i <= c < |Fields(j)| && ChildHit(j, c, labels)
                && FirstNested(j, i, labels) == Resolve(Fields(j)[c].1, labels)
                && forall c' :: i <= c' < c ==> !ChildHit(j, c', labels)
    decreases |Fields(j)| - i
  {
    if i < |Fields(j)| {
      FirstNestedMeaning(j, i + 1, labels);
      var child := Fields(j)[i].1;
      var r := FirstNested(j, i, labels);
      if ChildHit(j, i, labels) {
        assert r == Resolve(child, labels);
      } else {
        assert r == FirstNested(j, i + 1, labels);
        if !r.Null? {
          var c :| i + 1 <= c < |Fields(j)| && ChildHit(j, c, labels)
                   && r == Resolve(Fields(j)[c].1, labels)
                   && forall c' :: i + 1 <= c' < c ==> !ChildHit(j, c', labels);
          assert forall c' :: i <= c' < c ==> !ChildHit(j, c', labels);
        }
      }
    }
  }

  /** With no direct match at the current level, the result is the first
      non-null result among the object-typed children, in key order, and it
      is null exactly when every such child resolves to null. */
  lemma NestedSearchOrder(j: Json, labels: seq<string>)
    requires Truthy(j) && IsObject(j)
    requires forall k :: 0 <= k < |labels| ==> !DirectHit(Normalize(Fields(j)), labels[k])
    ensures Resolve(j, labels).Null? <==> forall c :: 0 <= c < |Fields(j)| ==> !ChildHit(j, c, labels)
    ensures !Resolve(j, labels).Null? ==>
              exists c :: 0 <= c < |Fields(j)| && ChildHit(j, c, labels)
                && Resolve(j, labels) == Resolve(Fields(j)[c].1, labels)
                && forall c' :: 0 <= c' < c ==> !ChildHit(j, c', labels)
  {
    FirstDirectMeaning(Normalize(Fields(j)), labels);
    FirstNestedMeaning(j, 0, labels);
  }

  /** An empty object resolves to nothing, whatever the candidates. */
  lemma EmptyResolvesNothing(labels: seq<string>)
    ensures Resolve(Obj([]), labels) == Null
  {
    FirstDirectMeaning(map[], labels);
  }

  /** What a direct lookup yields, with `Null` for no match. */
  function Found(r: Option<Json>): Json {
    match r
    case Some(v) => v
    case None => Null
  }

  /** An object none of whose values is object-typed resolves by its direct
      lookup alone. */
  lemma FlatObjectResolvesDirectly(fs: seq<(string, Json)>, labels: seq<string>)
    requires forall i :: 0 <= i < |fs| ==> !IsObject(fs[i].1)
    ensures Resolve(Obj(fs), labels) == Found(FirstDirect(Normalize(fs), labels))
  {
    FirstNestedMeaning(Obj(fs), 0, labels);
  }

  /** Every candidate lower-cased, as the resolver compares them. */
  function LowerAll(labels: seq<string>): (r: seq<string>)
    ensures |r| == |labels|
  {
    if labels == [] then [] else [Lower(labels[0])] + LowerAll(labels[1..])
  }

  lemma {:induction false} FirstDirectIgnoresLabelCase(norm: map<string, Json>, labels: seq<string>)
    ensures FirstDirect(norm, LowerAll(labels)) == FirstDirect(norm, labels)
  {
    if labels != [] {
      var lowered := LowerAll(labels);
      LowerIdempotent(labels[0]);
      assert lowered[0] == Lower(labels[0]) && lowered[1..] == LowerAll(labels[1..]);
      FirstDirectIgnoresLabelCase(norm, labels[1..]);
    }
  }

  /** Candidates are compared after lower-casing: the case in which the caller
      spells them never changes the answer. */
  lemma {:induction false} ResolveIgnoresLabelCase(j: Json, labels: seq<string>)
    ensures Resolve(j, LowerAll(labels)) == Resolve(j, labels)
    decreases j, 1
  {
    if Truthy(j) && IsObject(j) {
      FirstDirectIgnoresLabelCase(Normalize(Fields(j)), labels);
      FirstNestedIgnoresLabelCase(j, 0, labels);
    }
  }

  lemma {:induction false} FirstNestedIgnoresLabelCase(j: Json, i: nat, labels: seq<string>)
    requires i <= |Fields(j)|
    ensures FirstNested(j, i, LowerAll(labels)) == FirstNested(j, i, labels)
    decreases j, 0, |Fields(j)| - i
  {
    if i < |Fields(j)| {
      ResolveIgnoresLabelCase(Fields(j)[i].1, labels);
      FirstNestedIgnoresLabelCase(j, i + 1, labels);
    }
  }

  /** Field `i` of `fs` carries a truthy value under a key that lower-cases
      to one of the candidates, and no later key at that level shadows it. */
  predicate LabelledAt(fs: seq<(string, Json)>, i: nat, labels: seq<string>)
    requires i < |fs|
  {
    && Truthy(fs[i].1)
    && (exists k :: 0 <= k < |labels| && Lower(labels[k]) == Lower(fs[i].0))
    && forall m :: i < m < |fs| ==> Lower(fs[m].0) != Lower(fs[i].0)
  }

  /** Some candidate label carries a truthy value at this level or, through
      object-typed children, at any depth below it. */
  ghost predicate Reachable(j: Json, labels: seq<string>)
    decreases j
  {
    && Truthy(j) && IsObject(j)
    && ((exists i :: 0 <= i < |Fields(j)| && LabelledAt(Fields(j), i, labels))
        || (exists c :: 0 <= c < |Fields(j)| && IsObject(Fields(j)[c].1) && Reachable(Fields(j)[c].1, labels)))
  }

  /** A recognisable label at any nesting depth makes the resolver succeed. */
  lemma {:induction false} ReachableResolves(j: Json, labels: seq<string>)
    requires Reachable(j, labels)
    ensures Truthy(Resolve(j, labels))
    decreases j
  {
    var fs := Fields(j);
    var norm := Normalize(fs);
    if exists i :: 0 <= i < |fs| && LabelledAt(fs, i, labels) {
      var i :| 0 <= i < |fs| && LabelledAt(fs, i, labels);
      var k :| 0 <= k < |labels| && Lower(labels[k]) == Lower(fs[i].0);
      NormalizeLast(fs, i);
      assert DirectHit(norm, labels[k]);
      FirstDirectMeaning(norm, labels);
    } else if FirstDirect(norm, labels).None? {
      FirstDirectMeaning(norm, labels);
      var c :| 0 <= c < |fs| && IsObject(fs[c].1) && Reachable(fs[c].1, labels);
      ReachableResolves(fs[c].1, labels);
      assert ChildHit(j, c, labels);
      FirstNestedMeaning(j, 0, labels);
    }
  }

  /** `key` lower-cases to one of the candidates. */
  predicate KeyMatches(key: string, labels: seq<string>) {
    exists k :: 0 <= k < |labels| && Lower(labels[k]) == Lower(key)
  }

  /** Some key at this level or, through object-typed children, at any depth
      below it lower-cases to a candidate, whatever its value. */
  ghost predicate Mentions(j: Json, labels: seq<string>)
    decreases j
  {
    && Truthy(j) && IsObject(j)
    && ((exists i :: 0 <= i < |Fields(j)| && KeyMatches(Fields(j)[i].0, labels))
        || (exists c :: 0 <= c < |Fields(j)| && IsObject(Fields(j)[c].1) && Mentions(Fields(j)[c].1, labels)))
  }

  /** The converse of `ReachableResolves`: a value the resolver finds sits
      under a key spelled like a candidate, so a result that mentions no
      candidate at any depth resolves to null. */
  lemma {:induction false} UnmentionedResolvesNothing(j: Json, labels: seq<string>)
    requires !Mentions(j, labels)
    ensures Resolve(j, labels) == Null
    decreases j
  {
    if Truthy(j) && IsObject(j) {
      var fs := Fields(j);
      var norm := Normalize(fs);
      assert forall k :: 0 <= k < |labels| ==> !DirectHit(norm, labels[k]);
      FirstDirectMeaning(norm, labels);
      forall c | 0 <= c < |fs| ensures !ChildHit(j, c, labels) {
        if IsObject(fs[c].1) {
          UnmentionedResolvesNothing(fs[c].1, labels);
        }
      }
      FirstNestedMeaning(j, 0, labels);
    }
  }
}
