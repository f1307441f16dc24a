/** Parsing a variant identifier `assembly:chromosome:position:reference:alternate` into coordinates, as
    Python's `re.match` of `(GRCh37|GRCh38):(.*):([ 0-9]*):(-| |[ACGTacgt]*):(-| |[ACGTacgt]*)` does it. */
module ModelsMapping {
  import opened Strings
  import opened Json

  /** The coordinates the parser fills in. */
  datatype VariantCoordinates = VariantCoordinates(
    assembly: string, chromosome: string, position: string, reference: string, alternate: string)

  /** Characters of the position group. */
  predicate PositionChar(c: char) {
    c == ' ' || '0' <= c <= '9'
  }

  /** Characters of the third branch of an allele group. */
  predicate Base(c: char) {
    c in "ACGTacgt"
  }

  /** A string the group `[ 0-9]*` matches in full. */
  predicate PositionField(f: string) {
    forall i :: 0 <= i < |f| ==> PositionChar(f[i])
  }

  /** A string the group `(-| |[ACGTacgt]*)` matches in full. */
  predicate AlleleField(f: string) {
    f == "-" || f == " " || forall i :: 0 <= i < |f| ==> Base(f[i])
  }

  /** `s[lo..hi]` fits `[ 0-9]*`. */
  predicate PositionSpan(s: string, lo: nat, hi: nat)
    requires lo <= hi <= |s|
  {
    forall k :: lo <= k < hi ==> PositionChar(s[k])
  }

  /** `s[lo..hi]` fits `(-| |[ACGTacgt]*)`. */
  predicate AlleleSpan(s: string, lo: nat, hi: nat)
    requires lo <= hi <= |s|
  {
    (hi == lo + 1 && (s[lo] == '-' || s[lo] == ' ')) || forall k :: lo <= k < hi ==> Base(s[k])
  }

  /** `s[lo..hi]` fits `.*`, which does not match a newline. */
  predicate LineSpan(s: string, lo: nat, hi: nat)
    requires lo <= hi <= |s|
  {
    forall k :: lo <= k < hi ==> s[k] != '\n'
  }

  /** The identifier opens with one of the two assemblies and a colon. */
  predicate HasAssembly(s: string) {
    |s| >= 7 && (s[..6] == "GRCh37" || s[..6] == "GRCh38") && s[6] == ':'
  }

  /** A decomposition of the start of `s`: the chromosome ends at the colon `c`, the raw position at the
      colon `p` and the reference at the colon `q`; the alternate starts at `q + 1`. */
  predicate Shape(s: string, c: int, p: int, q: int) {
    && HasAssembly(s)
    && 7 <= c < p < q < |s|
    && LineSpan(s, 7, c) && s[c] == ':'
    && PositionSpan(s, c + 1, p) && s[p] == ':'
    && AlleleSpan(s, p + 1, q) && s[q] == ':'
  }

  /** Some decomposition exists, so the pattern matches at the start of `s`. */
  ghost predicate Matches(s: string) {
    exists c, p, q :: Shape(s, c, p, q)
  }

  /** The first colon at or after `i`, or `|s|`. */
  function FirstColon(s: string, i: nat): (r: nat)
    requires i <= |s|
    ensures i <= r <= |s| && (r == |s| || s[r] == ':')
    ensures forall k :: i <= k < r ==> s[k] != ':'
    decreases |s| - i
  {
    if i == |s| || s[i] == ':' then i else FirstColon(s, i + 1)
  }

  /** The end of the longest run of bases from `i`. */
  function BaseRunEnd(s: string, i: nat): (r: nat)
    requires i <= |s|
    ensures i <= r <= |s| && (r == |s| || !Base(s[r]))
    ensures forall k :: i <= k < r ==> Base(s[k])
    decreases |s| - i
  {
    if i == |s| || !Base(s[i]) then i else BaseRunEnd(s, i + 1)
  }

  /** The end of the alternate group at `t`, as the regex engine takes it: the first branch that matches,
      the last branch as long as it goes. With no end anchor, it always matches. */
  function AlternateEnd(s: string, t: nat): (e: nat)
    requires t <= |s|
    ensures t <= e <= |s| && AlleleSpan(s, t, e)
    ensures t < |s| && (s[t] == '-' || s[t] == ' ') ==> e == t + 1
    ensures !(t < |s| && (s[t] == '-' || s[t] == ' ')) ==> e == |s| || !Base(s[e])
  {
    if t < |s| && (s[t] == '-' || s[t] == ' ') then t + 1 else BaseRunEnd(s, t)
  }

  /** With the chromosome ending at the colon `c`, the colons that end the position and the reference, if
      the fields between them fit their groups. */
  function Tail(s: string, c: nat): Option<(nat, nat)>
    requires c < |s|
  {
    var p := FirstColon(s, c + 1);
    if p == |s| then None
    else
      var q := FirstColon(s, p + 1);
      if q == |s| then None
      else if PositionSpan(s, c + 1, p) && AlleleSpan(s, p + 1, q) then Some((p, q))
      else None
  }

  /** For a fixed chromosome, the rest of a decomposition is forced: `Tail` finds it exactly when one
      exists, since neither the position nor a reference holds a colon. */
  lemma TailExact(s: string, c: nat)
    requires HasAssembly(s) && 7 <= c < |s| && LineSpan(s, 7, c) && s[c] == ':'
    ensures Tail(s, c).Some? ==> Shape(s, c, Tail(s, c).value.0, Tail(s, c).value.1)
    ensures forall p, q :: Shape(s, c, p, q) ==> Tail(s, c) == Some((p, q))
  {
    forall p, q | Shape(s, c, p, q) ensures Tail(s, c) == Some((p, q)) {
      var p' := FirstColon(s, c + 1);
      assert p' == p;
      var q' := FirstColon(s, p + 1);
      assert q' == q;
    }
  }

  /** The chromosome can end at the colon `c`: only non-newline characters before it, and a tail after. */
  predicate Candidate(s: string, c: nat) {
    7 <= c < |s| && s[c] == ':' && LineSpan(s, 7, c) && Tail(s, c).Some?
  }

  /** The greedy `(.*)` backtracking from the right: the last candidate end below `hi`. */
  function LastCandidate(s: string, hi: nat): (r: Option<nat>)
    requires hi <= |s|
    ensures r.Some? ==> r.value < hi && Candidate(s, r.value)
    ensures r.Some? ==> forall c: nat :: r.value < c < hi ==> !Candidate(s, c)
    ensures r.None? ==> forall c: nat :: c < hi ==> !Candidate(s, c)
  {
    if hi <= 7 then None
    else if Candidate(s, hi - 1) then Some(hi - 1)
    else LastCandidate(s, hi - 1)
  }

  /** No decomposition has a longer chromosome than the one ending at `c`. */
  ghost predicate Longest(s: string, c: int) {
    forall c', p', q' :: Shape(s, c', p', q') ==> c' <= c
  }

  /** `v` holds the groups of the decomposition `c`, `p`, `q`, the position stripped, the alternate as
      the regex engine takes it. */
  ghost predicate Groups(s: string, v: VariantCoordinates, c: int, p: int, q: int)
    requires Shape(s, c, p, q)
  {
    && v.assembly == s[..6] && v.chromosome == s[7..c] && v.position == Strip(s[c + 1..p])
    && v.reference == s[p + 1..q] && v.alternate == s[q + 1..AlternateEnd(s, q + 1)]
  }

  /** `map_variant_id_to_variant`: the coordinates of the match at the start of the identifier, with the
      position stripped; `ValueError` when the pattern does not match there. Of all decompositions the
      regex engine takes the one with the longest chromosome. */
  function MapVariantIdToVariant(s: string): (r: Result<VariantCoordinates>)
    ensures r.Failure? <==> !Matches(s)
    ensures r.Failure? ==> r.error == ValueError("Wrong variant identifier: " + s)
    ensures r.Success? ==> exists c, p, q :: Shape(s, c, p, q) && Longest(s, c) && Groups(s, r.value, c, p, q)
  {
    var failure := Failure(ValueError("Wrong variant identifier: " + s));
    if !HasAssembly(s) then failure
    else
      match LastCandidate(s, |s|)
      case None =>
        NoCandidate(s);
        failure
      case Some(c) =>
        TailExact(s, c);
        var (p, q) := Tail(s, c).value;
        LastIsLongest(s, c);
        var v := VariantCoordinates(s[..6], s[7..c], Strip(s[c + 1..p]), s[p + 1..q], s[q + 1..AlternateEnd(s, q + 1)]);
        assert Groups(s, v, c, p, q);
        Success(v)
  }

  /** Without a candidate end for the chromosome there is no decomposition. */
  lemma NoCandidate(s: string)
    requires HasAssembly(s) && LastCandidate(s, |s|).None?
    ensures !Matches(s)
  {
    forall c, p, q | Shape(s, c, p, q) ensures false {
      TailExact(s, c);
      assert Candidate(s, c);
    }
  }

  /** The last candidate end is the end of the longest chromosome of any decomposition. */
  lemma LastIsLongest(s: string, c: nat)
    requires HasAssembly(s) && LastCandidate(s, |s|) == Some(c)
    ensures Longest(s, c)
  {
    forall c', p', q' | Shape(s, c', p', q') ensures c' <= c {
      TailExact(s, c');
      assert Candidate(s, c');
    }
  }

  /** The assembly the match names, and the identifier opens with it and a colon. */
  lemma AssemblyOfMatch(s: string)
    requires MapVariantIdToVariant(s).Success?
    ensures var v := MapVariantIdToVariant(s).value;
      (v.assembly == "GRCh37" || v.assembly == "GRCh38") && StartsWith(s, v.assembly + ":")
  {
    var v := MapVariantIdToVariant(s).value;
    var c, p, q :| Shape(s, c, p, q) && Groups(s, v, c, p, q);
    AssemblyPrefix(s);
  }

  lemma AssemblyPrefix(s: string)
    requires HasAssembly(s)
    ensures StartsWith(s, s[..6] + ":")
  {
    assert s[..6] + ":" == s[..7];
  }

  /** A span that fits a group gives a field that fits it. */
  lemma SpanFields(s: string, lo: nat, hi: nat)
    requires lo <= hi <= |s|
    ensures PositionSpan(s, lo, hi) ==> PositionField(s[lo..hi])
    ensures AlleleSpan(s, lo, hi) ==> AlleleField(s[lo..hi])
  {
    if AlleleSpan(s, lo, hi) && !(hi == lo + 1 && (s[lo] == '-' || s[lo] == ' ')) {
      forall i | 0 <= i < hi - lo ensures Base(s[lo..hi][i]) {
        assert s[lo..hi][i] == s[lo + i];
      }
    }
    if AlleleSpan(s, lo, hi) && hi == lo + 1 && (s[lo] == '-' || s[lo] == ' ') {
      assert s[lo..hi] == [s[lo]];
    }
  }

  /** Reference and alternate each fit `(-| |[ACGTacgt]*)`. */
  lemma FieldsOfMatch(s: string)
    requires MapVariantIdToVariant(s).Success?
    ensures var v := MapVariantIdToVariant(s).value;
      AlleleField(v.reference) && AlleleField(v.alternate)
  {
    var v := MapVariantIdToVariant(s).value;
    var c, p, q :| Shape(s, c, p, q) && Groups(s, v, c, p, q);
    GroupFields(s, v, c, p, q);
  }

  /** Cutting `s` at the colons `c`, `p` and `q` and gluing the pieces up to `e` back with colons. */
  lemma Reassemble(s: string, c: int, p: int, q: int, e: int)
    requires 7 <= c < p < q < e <= |s| || 7 <= c < p < q == e - 1 < |s|
    requires s[6] == ':' && s[c] == ':' && s[p] == ':' && s[q] == ':'
    ensures StartsWith(s, s[..6] + ":" + s[7..c] + ":" + s[c + 1..p] + ":" + s[p + 1..q] + ":" + s[q + 1..e])
  {
    assert s[..e] == s[..6] + [s[6]] + s[7..c] + [s[c]] + s[c + 1..p] + [s[p]] + s[p + 1..q] + [s[q]] + s[q + 1..e];
  }

  /** The spans of one decomposition fit their patterns and, glued with colons, open the identifier. */
  lemma ShapeFields(s: string, c: int, p: int, q: int)
    requires Shape(s, c, p, q)
    ensures var e := AlternateEnd(s, q + 1);
      && AlleleField(s[p + 1..q]) && AlleleField(s[q + 1..e]) && PositionField(s[c + 1..p])
      && StartsWith(s, s[..6] + ":" + s[7..c] + ":" + s[c + 1..p] + ":" + s[p + 1..q] + ":" + s[q + 1..e])
  {
    var e := AlternateEnd(s, q + 1);
    SpanFields(s, p + 1, q);
    SpanFields(s, q + 1, e);
    SpanFields(s, c + 1, p);
    Reassemble(s, c, p, q, e);
  }

  /** The groups of one decomposition fit their patterns and, glued with colons, open the identifier. */
  lemma GroupFields(s: string, v: VariantCoordinates, c: int, p: int, q: int)
    requires Shape(s, c, p, q) && Groups(s, v, c, p, q)
    ensures AlleleField(v.reference) && AlleleField(v.alternate)
    ensures PositionField(s[c + 1..p]) && v.position == Strip(s[c + 1..p])
    ensures StartsWith(s, v.assembly + ":" + v.chromosome + ":" + s[c + 1..p] + ":" + v.reference + ":" + v.alternate)
  {
    ShapeFields(s, c, p, q);
  }

  /** The identifier is, from its start, the fields of the match joined by colons: the raw position is
      the only field that is changed, and only by stripping spaces. */
  lemma MatchedPrefix(s: string)
    requires MapVariantIdToVariant(s).Success?
    ensures var v := MapVariantIdToVariant(s).value;
      exists rawPosition :: PositionField(rawPosition) && v.position == Strip(rawPosition)
        && StartsWith(s, v.assembly + ":" + v.chromosome + ":" + rawPosition + ":" + v.reference + ":" + v.alternate)
  {
    var v := MapVariantIdToVariant(s).value;
    var c, p, q :| Shape(s, c, p, q) && Groups(s, v, c, p, q);
    GroupFields(s, v, c, p, q);
  }

  /** A well-formed identifier parses; an unknown assembly does not. */
  lemma Examples()
    ensures MapVariantIdToVariant("GRCh38:1:100:A:T").Success?
    ensures !Matches("GRCh36:1:100:A:T")
  {
    var s := "GRCh38:1:100:A:T";
    assert Shape(s, 8, 12, 14) by {
      assert s[..6] == "GRCh38";
      assert s[7..8] == "1";
      assert s[9..12] == "100";
      assert s[13..14] == "A";
    }
    var t := "GRCh36:1:100:A:T";
    assert t[..6][5] == '6';
    assert !HasAssembly(t);
  }
}
