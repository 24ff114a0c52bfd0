/** The extraction block of the `/separate` handler (index.js:139-163): the
    resolver applied with fixed, multilingual synonym lists per stem role. */
module StemExtractor {
  import opened Text
  import opened JsonValue
  import opened KeyResolver

  /** The synonym lists exactly as the handler spells them: vocals has no
      "voice" and guitar has no "guitarras". */
  const DRUM_LABELS: seq<string> := ["bateria", "drums", "drum"]
  const BASS_LABELS: seq<string> := ["baixo", "bass"]
  const VOCAL_LABELS: seq<string> := ["voz", "vozes", "vocals", "vocal"]
  const OTHER_LABELS: seq<string> := ["outros", "outro", "other", "others", "accompaniment"]
  const GUITAR_LABELS: seq<string> := ["guitarra", "guitar"]
  const PIANO_LABELS: seq<string> := ["piano", "keys", "teclado"]

  /** The five named stems of a response; `Null` stands for JavaScript's null. */
  datatype StemSet = StemSet(drums: Json, bass: Json, vocals: Json, guitar: Json, piano: Json)

  /** Each stem is absent or a truthy value: never "", 0 or false. */
  predicate WellFormedStems(s: StemSet) {
    && (s.drums.Null? || Truthy(s.drums))
    && (s.bass.Null? || Truthy(s.bass))
    && (s.vocals.Null? || Truthy(s.vocals))
    && (s.guitar.Null? || Truthy(s.guitar))
    && (s.piano.Null? || Truthy(s.piano))
  }

  /** `fullResponse?.result || {}`: a missing or falsy result reads as `{}`. */
  function ResultOf(result: Option<Json>): (r: Json)
    ensures Truthy(r)
    ensures result.Some? && Truthy(result.value) ==> r == result.value
  {
    match result
    case Some(v) => Or(v, Obj([]))
    case None => Obj([])
  }

  /** The stems found in a provider result; guitar and piano fall back to
      the "other" value when their own lookup finds nothing. */
  function ExtractStems(result: Json): (s: StemSet)
    ensures WellFormedStems(s)
  {
    var other := Resolve(result, OTHER_LABELS);
    StemSet(
      Resolve(result, DRUM_LABELS),
      Resolve(result, BASS_LABELS),
      Resolve(result, VOCAL_LABELS),
      Or(Resolve(result, GUITAR_LABELS), other),
      Or(Resolve(result, PIANO_LABELS), other))
  }

  /** The result counts as real only when drums, bass or vocals resolved. */
  predicate HasPrimary(s: StemSet)
    ensures WellFormedStems(s) ==> (HasPrimary(s) <==> !s.drums.Null? || !s.bass.Null? || !s.vocals.Null?)
  {
    Truthy(s.drums) || Truthy(s.bass) || Truthy(s.vocals)
  }

  /** Guitar is the direct guitar match when there is one, otherwise the
      "other" value; piano likewise. */
  lemma MelodicFallback(result: Json)
    ensures Resolve(result, GUITAR_LABELS).Null? ==> ExtractStems(result).guitar == Resolve(result, OTHER_LABELS)
    ensures !Resolve(result, GUITAR_LABELS).Null? ==> ExtractStems(result).guitar == Resolve(result, GUITAR_LABELS)
    ensures Resolve(result, PIANO_LABELS).Null? ==> ExtractStems(result).piano == Resolve(result, OTHER_LABELS)
    ensures !Resolve(result, PIANO_LABELS).Null? ==> ExtractStems(result).piano == Resolve(result, PIANO_LABELS)
  {
  }

  /** Guitar, piano or "other" never make a result real on their own. */
  lemma PrimaryNeedsDrumsBassOrVocals(result: Json)
    ensures HasPrimary(ExtractStems(result)) <==>
              !Resolve(result, DRUM_LABELS).Null? || !Resolve(result, BASS_LABELS).Null?
              || !Resolve(result, VOCAL_LABELS).Null?
  {
  }

  /** A drums, bass or vocals label anywhere in the result, at any depth and
      in any letter case, makes the result real. */
  lemma PrimaryAtAnyDepth(result: Json)
    requires Reachable(result, DRUM_LABELS) || Reachable(result, BASS_LABELS) || Reachable(result, VOCAL_LABELS)
    ensures HasPrimary(ExtractStems(result))
  {
    if Reachable(result, DRUM_LABELS) {
      ReachableResolves(result, DRUM_LABELS);
    } else if Reachable(result, BASS_LABELS) {
      ReachableResolves(result, BASS_LABELS);
    } else {
      ReachableResolves(result, VOCAL_LABELS);
    }
  }

  /** An empty result resolves nothing. */
  lemma EmptyResultHasNoStems()
    ensures ExtractStems(Obj([])) == StemSet(Null, Null, Null, Null, Null)
    ensures !HasPrimary(ExtractStems(Obj([])))
  {
    EmptyResolvesNothing(DRUM_LABELS);
    EmptyResolvesNothing(BASS_LABELS);
    EmptyResolvesNothing(VOCAL_LABELS);
    EmptyResolvesNothing(OTHER_LABELS);
    EmptyResolvesNothing(GUITAR_LABELS);
    EmptyResolvesNothing(PIANO_LABELS);
  }

  /** A list of labels without upper-case letters is looked up as written. */
  lemma LabelsLookedUpAsWritten(labels: seq<string>)
    requires forall k :: 0 <= k < |labels| ==> NoUpper(labels[k])
    ensures forall k :: 0 <= k < |labels| ==> Lower(labels[k]) == labels[k]
  {
    forall k | 0 <= k < |labels| ensures Lower(labels[k]) == labels[k] {
      LowerKeepsNoUpper(labels[k]);
    }
  }

  /** No candidate of the list is a key of the side table. */
  lemma RoleMisses(norm: map<string, Json>, labels: seq<string>)
    requires forall k :: 0 <= k < |labels| ==> NoUpper(labels[k]) && labels[k] !in norm
    ensures FirstDirect(norm, labels) == None
  {
    LabelsLookedUpAsWritten(labels);
    FirstDirectMeaning(norm, labels);
  }

  /** The first candidate of the list is a key with a truthy value. */
  lemma RoleHitsFirst(norm: map<string, Json>, labels: seq<string>)
    requires labels != [] && NoUpper(labels[0]) && labels[0] in norm && Truthy(norm[labels[0]])
    ensures FirstDirect(norm, labels) == Some(norm[labels[0]])
  {
    LowerKeepsNoUpper(labels[0]);
  }

  lemma ScenarioTable(a: Json, b: Json, c: Json)
    ensures Normalize([("Bateria", a), ("baixo", b), ("outros", c)])
         == map["bateria" := a, "baixo" := b, "outros" := c]
  {
    var fs := [("Bateria", a), ("baixo", b), ("outros", c)];
    assert Lower("Bateria") == "bateria" && Lower("baixo") == "baixo" && Lower("outros") == "outros";
    assert fs[..1][..0] == [];
    assert Normalize(fs[..1]) == map["bateria" := a];
    assert fs[..2][..1] == fs[..1];
    assert Normalize(fs[..2]) == map["bateria" := a, "baixo" := b];
    assert fs[..3][..2] == fs[..2];
  }

  lemma ScenarioRole(a: string, b: string, c: string, labels: seq<string>)
    ensures Resolve(Obj([("Bateria", Str(a)), ("baixo", Str(b)), ("outros", Str(c))]), labels)
         == Found(FirstDirect(map["bateria" := Str(a), "baixo" := Str(b), "outros" := Str(c)], labels))
  {
    ScenarioTable(Str(a), Str(b), Str(c));
    FlatObjectResolvesDirectly([("Bateria", Str(a)), ("baixo", Str(b)), ("outros", Str(c))], labels);
  }

  lemma ScenarioHits(a: string, b: string, c: string)
    requires a != "" && b != "" && c != ""
    ensures var norm := map["bateria" := Str(a), "baixo" := Str(b), "outros" := Str(c)];
      && FirstDirect(norm, DRUM_LABELS) == Some(Str(a))
      && FirstDirect(norm, BASS_LABELS) == Some(Str(b))
      && FirstDirect(norm, OTHER_LABELS) == Some(Str(c))
  {
    var norm := map["bateria" := Str(a), "baixo" := Str(b), "outros" := Str(c)];
    RoleHitsFirst(norm, DRUM_LABELS);
    RoleHitsFirst(norm, BASS_LABELS);
    RoleHitsFirst(norm, OTHER_LABELS);
  }

  lemma ScenarioMisses(norm: map<string, Json>)
    requires norm.Keys == {"bateria", "baixo", "outros"}
    ensures FirstDirect(norm, VOCAL_LABELS) == None
    ensures FirstDirect(norm, GUITAR_LABELS) == None
    ensures FirstDirect(norm, PIANO_LABELS) == None
  {
    RoleMisses(norm, VOCAL_LABELS);
    RoleMisses(norm, GUITAR_LABELS);
    RoleMisses(norm, PIANO_LABELS);
  }

  /** The result { "Bateria": a, "baixo": b, "outros": c } gives drums a,
      bass b, no vocals, and c for both guitar and piano; it counts as real. */
  lemma BateriaBaixoOutrosScenario(a: string, b: string, c: string)
    requires a != "" && b != "" && c != ""
    ensures ExtractStems(Obj([("Bateria", Str(a)), ("baixo", Str(b)), ("outros", Str(c))]))
         == StemSet(Str(a), Str(b), Null, Str(c), Str(c))
    ensures HasPrimary(ExtractStems(Obj([("Bateria", Str(a)), ("baixo", Str(b)), ("outros", Str(c))])))
  {
    ScenarioHits(a, b, c);
    ScenarioMisses(map["bateria" := Str(a), "baixo" := Str(b), "outros" := Str(c)]);
    ScenarioRole(a, b, c, DRUM_LABELS);
    ScenarioRole(a, b, c, BASS_LABELS);
    ScenarioRole(a, b, c, VOCAL_LABELS);
    ScenarioRole(a, b, c, OTHER_LABELS);
    ScenarioRole(a, b, c, GUITAR_LABELS);
    ScenarioRole(a, b, c, PIANO_LABELS);
  }

  /** A one-key object with a scalar value resolves by its direct lookup. */
  lemma SingleFieldRole(key: string, v: Json, labels: seq<string>)
    requires NoUpper(key) && !IsObject(v)
    ensures Resolve(Obj([(key, v)]), labels) == Found(FirstDirect(map[key := v], labels))
  {
    var fs := [(key, v)];
    LowerKeepsNoUpper(key);
    assert fs[..0] == [];
    assert Normalize(fs) == map[key := v];
    FlatObjectResolvesDirectly(fs, labels);
  }

  lemma OutrosMissesPrimary(norm: map<string, Json>)
    requires norm.Keys == {"outros"}
    ensures FirstDirect(norm, DRUM_LABELS) == None
    ensures FirstDirect(norm, BASS_LABELS) == None
    ensures FirstDirect(norm, VOCAL_LABELS) == None
  {
    RoleMisses(norm, DRUM_LABELS);
    RoleMisses(norm, BASS_LABELS);
    RoleMisses(norm, VOCAL_LABELS);
  }

  lemma OutrosMissesMelodic(norm: map<string, Json>)
    requires norm.Keys == {"outros"}
    ensures FirstDirect(norm, GUITAR_LABELS) == None
    ensures FirstDirect(norm, PIANO_LABELS) == None
  {
    RoleMisses(norm, GUITAR_LABELS);
    RoleMisses(norm, PIANO_LABELS);
  }

  /** The one-key result { "outros": u }: guitar = piano = u, and yet it
      does not count as real. */
  lemma OutrosOnlyExample(u: string)
    requires u != ""
    ensures ExtractStems(Obj([("outros", Str(u))])) == StemSet(Null, Null, Null, Str(u), Str(u))
    ensures !HasPrimary(ExtractStems(Obj([("outros", Str(u))])))
  {
    var norm := map["outros" := Str(u)];
    RoleHitsFirst(norm, OTHER_LABELS);
    OutrosMissesPrimary(norm);
    OutrosMissesMelodic(norm);
    SingleFieldRole("outros", Str(u), DRUM_LABELS);
    SingleFieldRole("outros", Str(u), BASS_LABELS);
    SingleFieldRole("outros", Str(u), VOCAL_LABELS);
    SingleFieldRole("outros", Str(u), OTHER_LABELS);
    SingleFieldRole("outros", Str(u), GUITAR_LABELS);
    SingleFieldRole("outros", Str(u), PIANO_LABELS);
  }

  /** A result in which no key, at any depth, is spelled like a drums,
      bass, vocals, guitar or piano label: guitar and piano both carry the
      "other" value, which is there as soon as an "other" label is, and the
      result does not count as real. */
  lemma OutrosOnlyScenario(result: Json)
    requires !Mentions(result, DRUM_LABELS) && !Mentions(result, BASS_LABELS) && !Mentions(result, VOCAL_LABELS)
    requires !Mentions(result, GUITAR_LABELS) && !Mentions(result, PIANO_LABELS)
    ensures var other := Resolve(result, OTHER_LABELS);
      ExtractStems(result) == StemSet(Null, Null, Null, other, other)
    ensures !HasPrimary(ExtractStems(result))
    ensures Reachable(result, OTHER_LABELS) ==> Truthy(ExtractStems(result).guitar) && Truthy(ExtractStems(result).piano)
  {
    UnmentionedResolvesNothing(result, DRUM_LABELS);
    UnmentionedResolvesNothing(result, BASS_LABELS);
    UnmentionedResolvesNothing(result, VOCAL_LABELS);
    UnmentionedResolvesNothing(result, GUITAR_LABELS);
    UnmentionedResolvesNothing(result, PIANO_LABELS);
    if Reachable(result, OTHER_LABELS) {
      ReachableResolves(result, OTHER_LABELS);
    }
  }

  /** "voice" is not a vocals synonym. */
  lemma VoiceIsNotVocals(u: string)
    requires u != ""
    ensures ExtractStems(Obj([("voice", Str(u))])).vocals == Null
  {
    RoleMisses(map["voice" := Str(u)], VOCAL_LABELS);
    SingleFieldRole("voice", Str(u), VOCAL_LABELS);
  }

  /** "guitarras" is neither a guitar nor an "other" synonym. */
  lemma GuitarrasIsNotGuitar(u: string)
    requires u != ""
    ensures ExtractStems(Obj([("guitarras", Str(u))])).guitar == Null
  {
    RoleMisses(map["guitarras" := Str(u)], GUITAR_LABELS);
    RoleMisses(map["guitarras" := Str(u)], OTHER_LABELS);
    SingleFieldRole("guitarras", Str(u), GUITAR_LABELS);
    SingleFieldRole("guitarras", Str(u), OTHER_LABELS);
  }

  /** No spelling of "voice", in any letter case, matches a vocals label. */
  lemma VoiceSpellingIsNotVocals(key: string)
    requires Lower(key) == "voice"
    ensures !KeyMatches(key, VOCAL_LABELS)
  {
    LabelsLookedUpAsWritten(VOCAL_LABELS);
  }

  /** No spelling of "guitarras" matches a guitar or an "other" label. */
  lemma GuitarrasSpellingIsNotGuitar(key: string)
    requires Lower(key) == "guitarras"
    ensures !KeyMatches(key, GUITAR_LABELS) && !KeyMatches(key, OTHER_LABELS)
  {
    LabelsLookedUpAsWritten(GUITAR_LABELS);
    LabelsLookedUpAsWritten(OTHER_LABELS);
  }
}
