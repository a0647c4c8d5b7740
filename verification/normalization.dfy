/** The allocate-and-delegate wrappers of NormalizerExtensions.cs over an
    abstract normalizer. The normalizer's own NormalizeInto and
    TryNormalizeInto are not part of this model: a `Normalizer` value carries
    them as functions from (source, destination before) to the destination
    after. Only the filtering of global comments, which the normalizer's tests
    pin down, is stated about them (`KeepsGlobalComments`). */
module Normalization {
  import opened IniModel
  import opened Seqs

  /** What a normalizer can change in a destination section: its comments and
      properties. A section's name is given at construction and has no
      setter, so it is not part of what the section operations return. */
  datatype SectionContent = SectionContent(comments: seq<Option<string>>, properties: seq<Property>)

  /** An IIniNormalizer: the two `...Into` operations for containers and for
      sections. The `try` forms report success and the destination's state,
      which after a failure may be partially filled. */
  datatype Normalizer = Normalizer(
    normalizeInto: (Container, Container) -> Container,
    tryNormalizeInto: (Container, Container) -> (bool, Container),
    normalizeSectionInto: (Section, Section) -> SectionContent,
    tryNormalizeSectionInto: (Section, Section) -> (bool, SectionContent))

  /** `new IniSection(name)`: a named section with no content. */
  function FreshSection(name: string): (s: Section)
    ensures s.name == name && |s.comments| == 0 && |s.properties| == 0
  {
    Section(name, [], [])
  }

  /** Normalize(IniContainer): normalizes into a freshly allocated empty
      container and returns that container, never the source. */
  function Normalize(n: Normalizer, source: Container): (r: Container)
    ensures r == n.normalizeInto(source, EmptyContainer())
  {
    var destination := EmptyContainer();
    n.normalizeInto(source, destination)
  }

  /** TryNormalize(IniContainer, out destination): the out value is present
      exactly when TryNormalizeInto reported success on a fresh container, and
      is then that container; a failed attempt yields no container at all,
      whatever the attempt left in its temporary destination. */
  function TryNormalize(n: Normalizer, source: Container): (r: (bool, Option<Container>))
    ensures r.0 <==> n.tryNormalizeInto(source, EmptyContainer()).0
    ensures r.1.Some? <==> r.0
    ensures r.0 ==> r.1.value == n.tryNormalizeInto(source, EmptyContainer()).1
  {
    var (ok, filled) := n.tryNormalizeInto(source, EmptyContainer());
    if ok then (true, Some(filled)) else (false, None)
  }

  /** Normalize(IniSection): normalizes into a fresh section carrying the
      source's name; the comments and properties are those the normalizer
      left in it. */
  function NormalizeSection(n: Normalizer, source: Section): (r: Section)
    ensures r.name == source.name
    ensures var filled := n.normalizeSectionInto(source, FreshSection(source.name));
      r.comments == filled.comments && r.properties == filled.properties
  {
    var content := n.normalizeSectionInto(source, FreshSection(source.name));
    Section(source.name, content.comments, content.properties)
  }

  /** TryNormalize(IniSection, out destination): like TryNormalize for
      containers; a returned section always carries the source's name. */
  function TryNormalizeSection(n: Normalizer, source: Section): (r: (bool, Option<Section>))
    ensures r.0 <==> n.tryNormalizeSectionInto(source, FreshSection(source.name)).0
    ensures r.1.Some? <==> r.0
    ensures r.0 ==> r.1.value.name == source.name
    ensures r.0 ==> r.1.value.comments == n.tryNormalizeSectionInto(source, FreshSection(source.name)).1.comments
    ensures r.0 ==> r.1.value.properties == n.tryNormalizeSectionInto(source, FreshSection(source.name)).1.properties
  {
    var (ok, content) := n.tryNormalizeSectionInto(source, FreshSection(source.name));
    if ok then (true, Some(Section(source.name, content.comments, content.properties))) else (false, None)
  }

  /** The comment-retention test of the normalizer options: every comment is
      kept when empty comments are included, otherwise only those that are
      not null, empty or white space. */
  function KeepComment(includeEmptyComments: bool): (keep: Option<string> -> bool) {
    (c: Option<string>) => includeEmptyComments || !IsNullOrWhiteSpace(c)
  }

  /** The comments a normalizer with the given option retains. */
  function KeptComments(comments: seq<Option<string>>, includeEmptyComments: bool): (r: seq<Option<string>>) {
    Filter(comments, KeepComment(includeEmptyComments))
  }

  /** The behaviour the normalizer's tests pin down: Normalize keeps exactly
      the retained global comments, in order. */
  ghost predicate KeepsGlobalComments(n: Normalizer, includeEmptyComments: bool) {
    forall source :: Normalize(n, source).globalComments == KeptComments(source.globalComments, includeEmptyComments)
  }

  /** The constraint is consistent: some normalizer meets it. */
  lemma GlobalCommentFilteringIsRealizable(includeEmptyComments: bool) returns (n: Normalizer)
    ensures KeepsGlobalComments(n, includeEmptyComments)
  {
    n := Normalizer(
      (s: Container, d: Container) => d.(globalComments := KeptComments(s.globalComments, includeEmptyComments)),
      (s: Container, d: Container) => (true, d),
      (s: Section, d: Section) => SectionContent(d.comments, d.properties),
      (s: Section, d: Section) => (true, SectionContent(d.comments, d.properties)));
    forall source
      ensures Normalize(n, source).globalComments == KeptComments(source.globalComments, includeEmptyComments)
    {
      assert Normalize(n, source) == EmptyContainer().(globalComments := KeptComments(source.globalComments, includeEmptyComments));
    }
  }

  /** With default options, the normalized global comments are exactly the
      source's non-blank comments, in their original order: none of them is
      null or white space, and every non-blank source comment is retained. */
  lemma DefaultNormalizationDropsBlankComments(n: Normalizer, source: Container)
    requires KeepsGlobalComments(n, false)
    ensures var kept := Normalize(n, source).globalComments;
      var idx := KeptIndices(source.globalComments, KeepComment(false));
      && (forall k :: 0 <= k < |kept| ==> !IsNullOrWhiteSpace(kept[k]))
      && |kept| == |idx|
      && (forall k :: 0 <= k < |kept| ==> kept[k] == source.globalComments[idx[k]])
      && (forall i :: 0 <= i < |source.globalComments| ==>
            (i in idx <==> !IsNullOrWhiteSpace(source.globalComments[i])))
  {
    var kept := Normalize(n, source).globalComments;
    assert kept == KeptComments(source.globalComments, false);
    FilterAtKeptIndices(source.globalComments, KeepComment(false));
    forall k | 0 <= k < |kept| ensures !IsNullOrWhiteSpace(kept[k]) {
      assert KeepComment(false)(kept[k]);
    }
    forall i | 0 <= i < |source.globalComments|
      ensures i in KeptIndices(source.globalComments, KeepComment(false))
          <==> !IsNullOrWhiteSpace(source.globalComments[i])
    {
      assert KeepComment(false)(source.globalComments[i]) <==> !IsNullOrWhiteSpace(source.globalComments[i]);
    }
  }

  /** With IncludeEmptyComments set, the global comments come through
      unchanged, so their number is unchanged and null or blank entries
      survive. */
  lemma IncludeEmptyCommentsKeepsAll(n: Normalizer, source: Container)
    requires KeepsGlobalComments(n, true)
    ensures Normalize(n, source).globalComments == source.globalComments
  {
    assert Normalize(n, source).globalComments == KeptComments(source.globalComments, true);
    FilterKeepsAll(source.globalComments, KeepComment(true));
  }

  /** Normalizing an already normalized container leaves its global comments
      as they are. */
  lemma GlobalCommentNormalizationIdempotent(n: Normalizer, source: Container, includeEmptyComments: bool)
    requires KeepsGlobalComments(n, includeEmptyComments)
    ensures Normalize(n, Normalize(n, source)).globalComments == Normalize(n, source).globalComments
  {
    var once := Normalize(n, source);
    assert once.globalComments == KeptComments(source.globalComments, includeEmptyComments);
    assert Normalize(n, once).globalComments == KeptComments(once.globalComments, includeEmptyComments);
    FilterIdempotent(source.globalComments, KeepComment(includeEmptyComments));
  }

  /** The container the normalizer tests use: two comments, an empty one and a null one. */
  function ContainerForEmptyComments(): (c: Container) {
    Container([Some("comment"), Some(""), Some("comment"), None], [], [])
  }

  /** The default-options test: the result has global comments and none of them is blank. */
  lemma DefaultOptionsRemoveEmptyComments(n: Normalizer)
    requires KeepsGlobalComments(n, false)
    ensures var result := Normalize(n, ContainerForEmptyComments()).globalComments;
      |result| > 0 && forall k :: 0 <= k < |result| ==> !IsNullOrWhiteSpace(result[k])
  {
    var source := ContainerForEmptyComments();
    DefaultNormalizationDropsBlankComments(n, source);
    var idx := KeptIndices(source.globalComments, KeepComment(false));
    assert !IsNullOrWhiteSpace(source.globalComments[0]) by {
      assert source.globalComments[0].value[0] == 'c';
      assert !IsWhiteSpace(source.globalComments[0].value[0]);
    }
    assert 0 in idx;
  }

  /** The IncludeEmptyComments test: the count is unchanged and a blank comment remains. */
  lemma IncludeEmptyOptionKeepsEmptyComments(n: Normalizer)
    requires KeepsGlobalComments(n, true)
    ensures var result := Normalize(n, ContainerForEmptyComments()).globalComments;
      |result| == |ContainerForEmptyComments().globalComments|
      && exists k :: 0 <= k < |result| && IsNullOrWhiteSpace(result[k])
  {
    var source := ContainerForEmptyComments();
    IncludeEmptyCommentsKeepsAll(n, source);
    assert IsNullOrWhiteSpace(source.globalComments[3]);
  }
}
