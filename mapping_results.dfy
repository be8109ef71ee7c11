/** The mapping results panel (src/components/search/MappingResults.js): confidence
    tiers and their colours, the colour of each target system, the split of the
    results into the Traditional Medicine (TM2) and biomedicine (BIO) groups, and
    which badges, messages and buttons are shown. */
module MappingResultsView {

  /** One mapping the backend proposes for a source code. `score` is its confidence. */
  datatype Mapping = Mapping(targetSystem: string, targetCode: string, targetDisplay: string, score: real)

  const Tm2System: string := "ICD-11-TM2"
  const BioSystem: string := "ICD-11-BIO"

  // ---------------------------------------------------------------------------
  // Confidence tiers
  // ---------------------------------------------------------------------------

  datatype Tier = Low | Medium | High

  /** The tier both colour functions encode: high from 0.8, medium from 0.5. */
  function TierOf(score: real): (t: Tier)
    ensures t == High <==> 0.8 <= score
    ensures t == Low <==> score < 0.5
  {
    if score >= 0.8 then High else if score >= 0.5 then Medium else Low
  }

  function Rank(t: Tier): nat
  {
    match t
    case Low => 0
    case Medium => 1
    case High => 2
  }

  function TextClass(t: Tier): string
  {
    match t
    case High => "text-green-600 dark:text-green-400"
    case Medium => "text-yellow-600 dark:text-yellow-400"
    case Low => "text-red-600 dark:text-red-400"
  }

  function BgClass(t: Tier): string
  {
    match t
    case High => "bg-green-100 dark:bg-green-900"
    case Medium => "bg-yellow-100 dark:bg-yellow-900"
    case Low => "bg-red-100 dark:bg-red-900"
  }

  /** `getConfidenceColor` */
  function ConfidenceColor(score: real): (c: string)
    ensures c == TextClass(TierOf(score))
  {
    if score >= 0.8 then "text-green-600 dark:text-green-400"
    else if score >= 0.5 then "text-yellow-600 dark:text-yellow-400"
    else "text-red-600 dark:text-red-400"
  }

  /** `getConfidenceBg` */
  function ConfidenceBg(score: real): (c: string)
    ensures c == BgClass(TierOf(score))
  {
    if score >= 0.8 then "bg-green-100 dark:bg-green-900"
    else if score >= 0.5 then "bg-yellow-100 dark:bg-yellow-900"
    else "bg-red-100 dark:bg-red-900"
  }

  /** The text colour and the background always name the same tier: two scores get
      the same text colour exactly when they get the same background. */
  lemma ColoursAgree(s1: real, s2: real)
    ensures ConfidenceColor(s1) == ConfidenceColor(s2) <==> ConfidenceBg(s1) == ConfidenceBg(s2)
    ensures ConfidenceColor(s1) == ConfidenceColor(s2) <==> TierOf(s1) == TierOf(s2)
  {
    TextClassInjective(TierOf(s1), TierOf(s2));
    BgClassInjective(TierOf(s1), TierOf(s2));
  }

  lemma TextClassInjective(t1: Tier, t2: Tier)
    ensures TextClass(t1) == TextClass(t2) <==> t1 == t2
  {
    if t1 != t2 {
      assert TextClass(t1)[5] != TextClass(t2)[5];
    }
  }

  lemma BgClassInjective(t1: Tier, t2: Tier)
    ensures BgClass(t1) == BgClass(t2) <==> t1 == t2
  {
    if t1 != t2 {
      assert BgClass(t1)[3] != BgClass(t2)[3];
    }
  }

  /** A higher score never gets a lower tier. */
  lemma TierMonotone(s1: real, s2: real)
    requires s1 <= s2
    ensures Rank(TierOf(s1)) <= Rank(TierOf(s2))
  {
  }

  /** The tier thresholds: where each tier starts and ends. */
  lemma TierBounds(score: real)
    ensures TierOf(score) == High <==> score >= 0.8
    ensures TierOf(score) == Medium <==> 0.5 <= score < 0.8
    ensures TierOf(score) == Low <==> score < 0.5
  {
  }

  /** `getSystemColor` */
  function SystemColor(system: string): (c: string)
    ensures system == Tm2System ==> c == "border-l-blue-500 bg-blue-50 dark:bg-blue-900/20"
    ensures system == BioSystem ==> c == "border-l-purple-500 bg-purple-50 dark:bg-purple-900/20"
    ensures system != Tm2System && system != BioSystem ==> c == "border-l-gray-500 bg-gray-50 dark:bg-gray-700"
  {
    if system == "ICD-11-TM2" then "border-l-blue-500 bg-blue-50 dark:bg-blue-900/20"
    else if system == "ICD-11-BIO" then "border-l-purple-500 bg-purple-50 dark:bg-purple-900/20"
    else "border-l-gray-500 bg-gray-50 dark:bg-gray-700"
  }

  // ---------------------------------------------------------------------------
  // The TM2 / BIO split
  // ---------------------------------------------------------------------------

  /** `results.filter(r => r.target_system === system)` */
  function OfSystem(results: seq<Mapping>, system: string): (r: seq<Mapping>)
    ensures |r| <= |results|
    ensures forall m :: m in r <==> m in results && m.targetSystem == system
    ensures forall i :: 0 <= i < |r| ==> r[i].targetSystem == system
    ensures multiset(r) <= multiset(results)
    ensures forall m :: multiset(r)[m] == if m.targetSystem == system then multiset(results)[m] else 0
  {
    if |results| == 0 then []
    else
      var rest := OfSystem(results[1..], system);
      assert results == [results[0]] + results[1..];
      if results[0].targetSystem == system then [results[0]] + rest else rest
  }

  /** Filtering keeps the original order: it distributes over concatenation. */
  lemma {:induction false} OfSystemAppend(a: seq<Mapping>, b: seq<Mapping>, system: string)
    ensures OfSystem(a + b, system) == OfSystem(a, system) + OfSystem(b, system)
    decreases |a|
  {
    if |a| > 0 {
      assert (a + b)[1..] == a[1..] + b;
      OfSystemAppend(a[1..], b, system);
    } else {
      assert a + b == b;
    }
  }

  function Tm2Mappings(results: seq<Mapping>): (r: seq<Mapping>)
    ensures forall m :: m in r <==> m in results && m.targetSystem == Tm2System
    ensures forall m :: multiset(r)[m] == if m.targetSystem == Tm2System then multiset(results)[m] else 0
  {
    OfSystem(results, Tm2System)
  }

  function BioMappings(results: seq<Mapping>): (r: seq<Mapping>)
    ensures forall m :: m in r <==> m in results && m.targetSystem == BioSystem
    ensures forall m :: multiset(r)[m] == if m.targetSystem == BioSystem then multiset(results)[m] else 0
  {
    OfSystem(results, BioSystem)
  }

  /** The mappings that neither group shows. */
  function OtherMappings(results: seq<Mapping>): (r: seq<Mapping>)
    ensures forall m :: m in r <==> m in results && m.targetSystem != Tm2System && m.targetSystem != BioSystem
    ensures forall m :: multiset(r)[m] ==
              if m.targetSystem != Tm2System && m.targetSystem != BioSystem then multiset(results)[m] else 0
  {
    if |results| == 0 then []
    else
      var rest := OtherMappings(results[1..]);
      assert results == [results[0]] + results[1..];
      if results[0].targetSystem != Tm2System && results[0].targetSystem != BioSystem
      then [results[0]] + rest else rest
  }

  /** The two groups and the unshown mappings together are exactly the results,
      each mapping as often as it occurs. */
  lemma Partition(results: seq<Mapping>)
    ensures multiset(Tm2Mappings(results)) + multiset(BioMappings(results)) + multiset(OtherMappings(results))
            == multiset(results)
  {
    var t, b, o := Tm2Mappings(results), BioMappings(results), OtherMappings(results);
    forall m ensures (multiset(t) + multiset(b) + multiset(o))[m] == multiset(results)[m] {
    }
    assert multiset(t) + multiset(b) + multiset(o) == multiset(results);
  }

  /** No mapping is shown in both groups. */
  lemma GroupsDisjoint(results: seq<Mapping>)
    ensures forall m :: !(m in Tm2Mappings(results) && m in BioMappings(results))
  {
  }

  /** The "Dual Coding Available" badge. */
  function DualCoding(results: seq<Mapping>): (r: bool)
    ensures r ==> |results| >= 2
  {
    var t, b := Tm2Mappings(results), BioMappings(results);
    if |t| > 0 && |b| > 0 then
      assert t[0] in results && b[0] in results && t[0] != b[0];
      true
    else false
  }

  /** The badge is shown exactly when some result targets TM2 and some targets BIO. */
  lemma DualCodingIff(results: seq<Mapping>)
    ensures DualCoding(results) <==>
              (exists i :: 0 <= i < |results| && results[i].targetSystem == Tm2System)
              && (exists j :: 0 <= j < |results| && results[j].targetSystem == BioSystem)
  {
    var t, b := Tm2Mappings(results), BioMappings(results);
    if |t| > 0 {
      assert t[0] in results;
    }
    if |b| > 0 {
      assert b[0] in results;
    }
    if exists i :: 0 <= i < |results| && results[i].targetSystem == Tm2System {
      var i :| 0 <= i < |results| && results[i].targetSystem == Tm2System;
      assert results[i] in t;
    }
    if exists j :: 0 <= j < |results| && results[j].targetSystem == BioSystem {
      var j :| 0 <= j < |results| && results[j].targetSystem == BioSystem;
      assert results[j] in b;
    }
  }

  /** "No mappings found for this code" */
  function ShowsNoMappings(results: seq<Mapping>): (r: bool)
    ensures r ==> !DualCoding(results)
  {
    |results| == 0
  }

  /** The "Generate FHIR Bundle" button. */
  function ShowsFhirButton(results: seq<Mapping>): (r: bool)
    ensures r <==> !ShowsNoMappings(results)
  {
    |results| > 0
  }

  /** Every card of the TM2 section has the blue border and every card of the BIO
      section the purple one: the gray fallback never shows, and the two sections
      never share a colour. */
  lemma SectionColours(results: seq<Mapping>)
    ensures forall m :: m in Tm2Mappings(results) ==> SystemColor(m.targetSystem) == "border-l-blue-500 bg-blue-50 dark:bg-blue-900/20"
    ensures forall m :: m in BioMappings(results) ==> SystemColor(m.targetSystem) == "border-l-purple-500 bg-purple-50 dark:bg-purple-900/20"
    ensures forall m, n :: m in Tm2Mappings(results) && n in BioMappings(results) ==>
              SystemColor(m.targetSystem) != SystemColor(n.targetSystem)
  {
  }

  /** Exactly one of the empty message and the FHIR button is shown, and a panel
      with dual coding always offers the button. */
  lemma EmptyOrButton(results: seq<Mapping>)
    ensures ShowsNoMappings(results) != ShowsFhirButton(results)
    ensures DualCoding(results) ==> ShowsFhirButton(results)
  {
  }
}
