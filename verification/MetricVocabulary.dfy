/**
 How scripts/lib/inference_metrics.py derives sample names from its metric families (the loop that
 fills `SAMPLES`): whatever the families, the vocabulary the parser works with is consistent.
 */
module MetricVocabulary {
  import opened MetricSnapshot

  type Definitions = map<string, Definition>

  function WithoutTotal(family: string): string {
    if |family| >= 6 && family[|family| - 6..] == "_total" then family[..|family| - 6] else family
  }

  function SampleName(kind: Kind, family: string, part: Part): string {
    match part
    case Value => family
    case Created => (if kind == Counter then WithoutTotal(family) else family) + "_created"
    case Bucket => family + "_bucket"
    case Count => family + "_count"
    case Sum => family + "_sum"
  }

  predicate LegalFamilies(definitions: Definitions) {
    forall family | family in definitions ::
      IsMetricName(family) && definitions[family].extras !! {"model_name", "engine", "le"}
  }

  /** Every name stands for a family and a part it can have, and is the name of that part. */
  predicate Derived(definitions: Definitions, samples: map<string, (string, Part)>) {
    forall name | name in samples ::
      var (family, part) := samples[name];
      && family in definitions && Fits(definitions[family].kind, part)
      && name == SampleName(definitions[family].kind, family, part)
  }

  /** The name of every part of these families is in the table, though perhaps for another part. */
  predicate Covers(definitions: Definitions, families: set<string>, samples: map<string, (string, Part)>) {
    forall family, part | family in families && family in definitions && Fits(definitions[family].kind, part) ::
      SampleName(definitions[family].kind, family, part) in samples
  }

  /** No two parts, of one family or of two, have the same name. */
  ghost predicate NamesDiffer(definitions: Definitions) {
    forall f, p, g, q | IsPart(definitions, f, p) && IsPart(definitions, g, q) ::
      SampleName(definitions[f].kind, f, p) == SampleName(definitions[g].kind, g, q) ==> f == g && p == q
  }

  predicate IsPart(definitions: Definitions, family: string, part: Part) {
    family in definitions && Fits(definitions[family].kind, part)
  }

  /** Every part of these families can be found under its name. */
  predicate Finds(definitions: Definitions, families: set<string>, samples: map<string, (string, Part)>) {
    forall family, part | family in families && IsPart(definitions, family, part) ::
      var name := SampleName(definitions[family].kind, family, part);
      name in samples && samples[name] == (family, part)
  }

  /** A table that gives each name its own part finds every part just when the names differ. */
  lemma FindsExactly(definitions: Definitions, samples: map<string, (string, Part)>)
    requires Derived(definitions, samples) && Covers(definitions, definitions.Keys, samples)
    ensures Finds(definitions, definitions.Keys, samples) <==> NamesDiffer(definitions)
  {
    if NamesDiffer(definitions) {
      forall family, part | family in definitions && IsPart(definitions, family, part)
        ensures samples[SampleName(definitions[family].kind, family, part)] == (family, part)
      {
        var (g, q) := samples[SampleName(definitions[family].kind, family, part)];
        assert IsPart(definitions, g, q);
      }
    }
  }

  method DeriveSamples(definitions: Definitions) returns (samples: map<string, (string, Part)>)
    ensures Derived(definitions, samples) && Covers(definitions, definitions.Keys, samples)
  {
    samples := map[];
    var left := definitions.Keys;
    while left != {}
      invariant left <= definitions.Keys
      invariant Derived(definitions, samples) && Covers(definitions, definitions.Keys - left, samples)
      decreases |left|
    {
      var family :| family in left;
      var kind := definitions[family].kind;
      if kind == Distribution {
        samples := samples[family + "_bucket" := (family, Bucket)];
        samples := samples[family + "_count" := (family, Count)];
        samples := samples[family + "_sum" := (family, Sum)];
        samples := samples[family + "_created" := (family, Created)];
      } else {
        samples := samples[family := (family, Value)];
        if kind == Counter {
          samples := samples[WithoutTotal(family) + "_created" := (family, Created)];
        }
      }
      left := left - {family};
    }
    assert definitions.Keys - left == definitions.Keys;
  }

  /** Whatever the legal families: each sample name has one meaning, and no two names share one.
      Every part is found under its name exactly when no two parts have the same name. */
  method BuildVocabulary(definitions: Definitions) returns (v: Vocabulary)
    requires LegalFamilies(definitions)
    ensures v.definitions == definitions && Consistent(v)
    ensures Covers(definitions, definitions.Keys, v.samples)
    ensures Finds(definitions, definitions.Keys, v.samples) <==> NamesDiffer(definitions)
  {
    var samples := DeriveSamples(definitions);
    FindsExactly(definitions, samples);
    v := Vocabulary(definitions, samples);
  }

  /** Two legal families whose parts share a name: the sum of "a" and the gauge "a_sum". */
  lemma NamesCanCollide()
    ensures var d := map["a" := Definition(Distribution, Requests, {}), "a_sum" := Definition(Gauge, Requests, {})];
            LegalFamilies(d) && !NamesDiffer(d)
  {
    var d := map["a" := Definition(Distribution, Requests, {}), "a_sum" := Definition(Gauge, Requests, {})];
    assert IsPart(d, "a", Sum) && IsPart(d, "a_sum", Value);
    assert SampleName(Distribution, "a", Sum) == SampleName(Gauge, "a_sum", Value);
  }
}
