/** The helpers over variant records: picking a representation by assembly, the small-variant test on a
    variant identifier and the largest alternate-allele frequency over a chosen set of studies. */
module VariantWrappers {
  import opened Strings
  import opened Json

  datatype Assembly = GRCh37 | GRCh38

  /** One representation of a variant; only its assembly matters here, the rest of the record is
      carried along unread. */
  datatype VariantRepresentation = VariantRepresentation(assembly: Assembly, rest: Value)

  /** A variant: its representations, in the order the record lists them. */
  datatype Variant = Variant(variants: seq<VariantRepresentation>)

  /** `get_variant_representation_by_assembly`: the first representation on `assembly`, or `None`. */
  function RepresentationByAssembly(vs: seq<VariantRepresentation>, assembly: Assembly): (r: Option<VariantRepresentation>)
    ensures r.None? <==> forall i :: 0 <= i < |vs| ==> vs[i].assembly != assembly
    ensures r.Some? ==> exists i :: 0 <= i < |vs| && vs[i] == r.value && vs[i].assembly == assembly
                                      && forall j :: 0 <= j < i ==> vs[j].assembly != assembly
  {
    if vs == [] then None
    else if vs[0].assembly == assembly then
      assert vs[0] == vs[0];
      Some(vs[0])
    else
      var r := RepresentationByAssembly(vs[1..], assembly);
      if r.Some? then
        var i :| 0 <= i < |vs[1..]| && vs[1..][i] == r.value && vs[1..][i].assembly == assembly
                 && forall j :: 0 <= j < i ==> vs[1..][j].assembly != assembly;
        assert vs[i + 1] == r.value;
        assert forall j :: 0 <= j < i + 1 ==> vs[j].assembly != assembly by {
          forall j | 1 <= j < i + 1 ensures vs[j].assembly != assembly {
            assert vs[1..][j - 1] == vs[j];
          }
        }
        r
      else
        assert forall j :: 0 <= j < |vs| ==> vs[j].assembly != assembly by {
          forall j | 1 <= j < |vs| ensures vs[j].assembly != assembly {
            assert vs[1..][j - 1] == vs[j];
          }
        }
        r
  }

  /** `get_default_variant_representation`: the GRCh38 representation, or failing that the GRCh37 one. */
  function DefaultRepresentation(variant: Variant): (r: Option<VariantRepresentation>)
    ensures RepresentationByAssembly(variant.variants, GRCh38).Some? ==> r == RepresentationByAssembly(variant.variants, GRCh38)
    ensures RepresentationByAssembly(variant.variants, GRCh38).None? ==> r == RepresentationByAssembly(variant.variants, GRCh37)
  {
    var preferred := RepresentationByAssembly(variant.variants, GRCh38);
    if preferred.None? then RepresentationByAssembly(variant.variants, GRCh37) else preferred
  }

  /** What the fallback gives: a GRCh38 representation whenever there is one, a GRCh37 representation
      only when there is no GRCh38 one, and nothing only when the variant has neither. */
  lemma DefaultPrefersGRCh38(variant: Variant)
    ensures var r := DefaultRepresentation(variant);
      && (r.None? <==> forall i :: 0 <= i < |variant.variants| ==> variant.variants[i].assembly !in {GRCh37, GRCh38})
      && ((exists i :: 0 <= i < |variant.variants| && variant.variants[i].assembly == GRCh38) ==> r.Some? && r.value.assembly == GRCh38)
      && (r.Some? && r.value.assembly == GRCh37 ==> forall i :: 0 <= i < |variant.variants| ==> variant.variants[i].assembly != GRCh38)
  {
    var vs := variant.variants;
    var by38 := RepresentationByAssembly(vs, GRCh38);
    var by37 := RepresentationByAssembly(vs, GRCh37);
    if by38.Some? {
      var i :| 0 <= i < |vs| && vs[i] == by38.value && vs[i].assembly == GRCh38;
    } else if by37.Some? {
      var i :| 0 <= i < |vs| && vs[i] == by37.value && vs[i].assembly == GRCh37;
    }
  }

  /** `^[ACGT]*$` as `re.match` applies it: upper-case bases only, where `$` also matches just before a
      newline that ends the string. */
  predicate SmallSequence(f: string) {
    (forall i :: 0 <= i < |f| ==> f[i] in "ACGT")
    || (|f| >= 1 && f[|f| - 1] == '\n' && forall i :: 0 <= i < |f| - 1 ==> f[i] in "ACGT")
  }

  /** `is_small_variant`: the fourth and fifth colon-separated fields are both runs of upper-case bases.
      A missing field raises `IndexError`, but `and` looks at the fifth only when the fourth passes. */
  function IsSmallVariant(variantId: string): (r: Result<bool>)
    ensures Count(variantId, ':') >= 4 ==> r.Success?
    ensures Count(variantId, ':') < 3 ==> r == Failure(IndexError)
    ensures var fields := Split(variantId, ':');
      |fields| == 4 ==> r == (if SmallSequence(fields[3]) then Failure(IndexError) else Success(false))
    ensures var fields := Split(variantId, ':');
      |fields| >= 5 ==> r == Success(SmallSequence(fields[3]) && SmallSequence(fields[4]))
    ensures r.Failure? ==> r.error == IndexError
  {
    var fields := Split(variantId, ':');
    SplitParts(variantId, ':');
    if |fields| <= 3 then Failure(IndexError)
    else if !SmallSequence(fields[3]) then Success(false)
    else if |fields| == 4 then Failure(IndexError)
    else Success(SmallSequence(fields[4]))
  }

  /** On an identifier assembled from five colon-free fields, the test looks at the reference and the
      alternate and at nothing else. */
  lemma SmallVariantOfFields(assembly: string, chromosome: string, position: string, reference: string, alternate: string)
    requires ':' !in assembly && ':' !in chromosome && ':' !in position && ':' !in reference && ':' !in alternate
    ensures IsSmallVariant(Join([assembly, chromosome, position, reference, alternate], ':'))
         == Success(SmallSequence(reference) && SmallSequence(alternate))
  {
    var parts := [assembly, chromosome, position, reference, alternate];
    SplitJoin(parts, ':');
  }

  /** A lower-case base makes an otherwise small variant not small. */
  lemma LowerCaseIsNotSmall(assembly: string, chromosome: string, position: string, base: char)
    requires ':' !in assembly && ':' !in chromosome && ':' !in position && base in "ACGT"
    ensures IsSmallVariant(Join([assembly, chromosome, position, [base], [base]], ':')) == Success(true)
    ensures IsSmallVariant(Join([assembly, chromosome, position, [base + 32 as char], [base]], ':')) == Success(false)
  {
    SmallVariantOfFields(assembly, chromosome, position, [base], [base]);
    SmallVariantOfFields(assembly, chromosome, position, [base + 32 as char], [base]);
    assert [base + 32 as char][0] !in "ACGT";
  }

  /** One population frequency of an annotation. */
  datatype PopulationFrequency = PopulationFrequency(study: string, population: string, altAlleleFreq: real)

  /** An annotation: its population frequencies, `None` and an empty list alike. */
  datatype VariantAnnotation = VariantAnnotation(populationFrequencies: seq<PopulationFrequency>)

  /** The dict `{'study': …, 'population': …}` a frequency is looked up by. */
  function StudyPopulation(freq: PopulationFrequency): Value {
    Obj(map["study" := Str(freq.study), "population" := Str(freq.population)])
  }

  /** `_include_frequency`: an empty filter lets every frequency through; otherwise the frequency's
      study and population, as a dict, must be one of the filter's entries. */
  predicate IncludeFrequency(freq: PopulationFrequency, studiesPopulations: seq<Value>) {
    studiesPopulations == [] || StudyPopulation(freq) in studiesPopulations
  }

  /** A frequency passes a non-empty filter exactly when an entry names its study and population and
      has no other key. */
  lemma IncludeFrequencyByEntry(freq: PopulationFrequency, studiesPopulations: seq<Value>)
    requires studiesPopulations != []
    ensures IncludeFrequency(freq, studiesPopulations) <==>
      exists i :: 0 <= i < |studiesPopulations| && studiesPopulations[i].Obj?
        && studiesPopulations[i].fields.Keys == {"study", "population"}
        && studiesPopulations[i].fields["study"] == Str(freq.study)
        && studiesPopulations[i].fields["population"] == Str(freq.population)
  {
    var key := StudyPopulation(freq);
    if IncludeFrequency(freq, studiesPopulations) {
      var i :| 0 <= i < |studiesPopulations| && studiesPopulations[i] == key;
      assert key.fields.Keys == {"study", "population"};
    }
    if exists i :: 0 <= i < |studiesPopulations| && studiesPopulations[i].Obj?
        && studiesPopulations[i].fields.Keys == {"study", "population"}
        && studiesPopulations[i].fields["study"] == Str(freq.study)
        && studiesPopulations[i].fields["population"] == Str(freq.population) {
      var i :| 0 <= i < |studiesPopulations| && studiesPopulations[i].Obj?
        && studiesPopulations[i].fields.Keys == {"study", "population"}
        && studiesPopulations[i].fields["study"] == Str(freq.study)
        && studiesPopulations[i].fields["population"] == Str(freq.population);
      assert studiesPopulations[i].fields == key.fields;
    }
  }

  /** The list comprehension: the alternate-allele frequencies that pass the filter, in order. */
  function IncludedFrequencies(freqs: seq<PopulationFrequency>, studiesPopulations: seq<Value>): (r: seq<real>)
    ensures forall x :: x in r <==> exists i :: 0 <= i < |freqs| && IncludeFrequency(freqs[i], studiesPopulations) && freqs[i].altAlleleFreq == x
  {
    if freqs == [] then []
    else
      var rest := IncludedFrequencies(freqs[1..], studiesPopulations);
      assert forall i :: 1 <= i < |freqs| ==> freqs[i] == freqs[1..][i - 1];
      if IncludeFrequency(freqs[0], studiesPopulations) then [freqs[0].altAlleleFreq] + rest else rest
  }

  /** Python's `max` of a non-empty list. */
  function Max(xs: seq<real>): (m: real)
    requires xs != []
    ensures m in xs && forall x :: x in xs ==> x <= m
  {
    if |xs| == 1 then xs[0]
    else
      var m := Max(xs[1..]);
      assert forall x :: x in xs ==> x == xs[0] || x in xs[1..];
      if xs[0] >= m then xs[0] else m
  }

  /** `get_max_allele_frequency`: the largest alternate-allele frequency among those that pass the
      filter, and `0.0` when none does (in particular when there are none). */
  function MaxAlleleFrequency(annotation: VariantAnnotation, studiesPopulations: seq<Value>): (r: real)
    ensures var freqs := annotation.populationFrequencies;
      (forall i :: 0 <= i < |freqs| ==> !IncludeFrequency(freqs[i], studiesPopulations)) ==> r == 0.0
    ensures var freqs := annotation.populationFrequencies;
      (exists i :: 0 <= i < |freqs| && IncludeFrequency(freqs[i], studiesPopulations)) ==>
        && (exists i :: 0 <= i < |freqs| && IncludeFrequency(freqs[i], studiesPopulations) && freqs[i].altAlleleFreq == r)
        && (forall i :: 0 <= i < |freqs| && IncludeFrequency(freqs[i], studiesPopulations) ==> freqs[i].altAlleleFreq <= r)
  {
    var freqs := annotation.populationFrequencies;
    if freqs == [] then 0.0
    else
      var included := IncludedFrequencies(freqs, studiesPopulations);
      assert forall i :: 0 <= i < |freqs| && IncludeFrequency(freqs[i], studiesPopulations) ==> freqs[i].altAlleleFreq in included;
      if included == [] then 0.0 else Max(included)
  }

  /** With no filter every frequency counts: the result is the largest of all of them. */
  lemma UnfilteredMaximum(annotation: VariantAnnotation)
    requires annotation.populationFrequencies != []
    ensures var freqs := annotation.populationFrequencies; var r := MaxAlleleFrequency(annotation, []);
      (exists i :: 0 <= i < |freqs| && freqs[i].altAlleleFreq == r) && forall i :: 0 <= i < |freqs| ==> freqs[i].altAlleleFreq <= r
  {
    var freqs := annotation.populationFrequencies;
    assert IncludeFrequency(freqs[0], []);
  }
}
