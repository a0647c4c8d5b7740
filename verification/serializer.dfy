/** IniSerializer: builds the INI text of a container with a string builder,
    one loop per `foreach` of the source, each line appended whole, and is
    proved to produce exactly the text the `Rendering` module defines. */
module IniSerializer {
  import opened IniModel
  import opened Seqs
  import opened Normalization
  import opened Rendering

  /** A serializer: its options, the normalizer it was constructed with, and
      the platform line terminator (Environment.NewLine). */
  datatype Serializer = Serializer(options: SerializationOptions, normalizer: Normalizer, newLine: string)

  /** A text sink, seen as the text written to it so far. */
  datatype TextWriter = TextWriter(text: string)

  /** Appends one line per comment: the indicator, the comment (nothing for
      null) and a line break. No comment is ever skipped. */
  method AppendComments(s: Serializer, builder: string, comments: seq<Option<string>>) returns (b: string)
    ensures b == builder + Flatten(CommentLines(s.options, s.newLine, comments))
  {
    var o, nl := s.options, s.newLine;
    b := builder;
    for i := 0 to |comments|
      invariant b == builder + Flatten(CommentLines(o, nl, comments[..i]))
    {
      CommentTextStep(o, nl, comments, i);
      var line := o.commentIndicator + OrEmpty(comments[i]) + nl;
      AppendAssoc(builder, Flatten(CommentLines(o, nl, comments[..i])), line);
      b := b + line;
    }
    assert comments[..|comments|] == comments;
  }

  /** Appends the property lines of a scope: every property when empty
      properties are included, otherwise only those whose value is not null
      or white space. */
  method AppendProperties(s: Serializer, builder: string, properties: seq<Property>) returns (b: string)
    ensures b == builder + Flatten(PropertyLines(s.options, s.newLine, properties))
  {
    var o, nl := s.options, s.newLine;
    b := builder;
    if o.includeEmptyProperties {
      for i := 0 to |properties|
        invariant b == builder + Flatten(PropertyLines(o, nl, properties[..i]))
      {
        PropertyTextStep(o, nl, properties, i);
        var line := properties[i].name + o.propertyNameValueDelimiter + OrEmpty(properties[i].value) + nl;
        AppendAssoc(builder, Flatten(PropertyLines(o, nl, properties[..i])), line);
        b := b + line;
      }
    } else {
      for i := 0 to |properties|
        invariant b == builder + Flatten(PropertyLines(o, nl, properties[..i]))
      {
        PropertyTextStep(o, nl, properties, i);
        if IsNullOrWhiteSpace(properties[i].value) {
          continue;
        }
        var line := properties[i].name + o.propertyNameValueDelimiter + OrEmpty(properties[i].value) + nl;
        AppendAssoc(builder, Flatten(PropertyLines(o, nl, properties[..i])), line);
        b := b + line;
      }
    }
    assert properties[..|properties|] == properties;
  }

  /** Appends the comment lines, then the property lines, of one scope. */
  method AppendCommentsAndProperties(s: Serializer, builder: string, comments: seq<Option<string>>, properties: seq<Property>)
    returns (b: string)
    ensures b == builder + Flatten(ScopeLines(s.options, s.newLine, comments, properties))
  {
    var commentLines := CommentLines(s.options, s.newLine, comments);
    var propertyLines := PropertyLines(s.options, s.newLine, properties);
    b := AppendComments(s, builder, comments);
    b := AppendProperties(s, b, properties);
    FlattenAppend(commentLines, propertyLines);
    AppendAssoc(builder, Flatten(commentLines), Flatten(propertyLines));
  }

  /** Appends a section's header line, then its comments and properties. */
  method AppendSection(s: Serializer, builder: string, section: Section) returns (b: string)
    ensures b == builder + Flatten(SectionLines(s.options, s.newLine, section))
  {
    var header := "[" + section.name + "]" + s.newLine;
    var body := ScopeLines(s.options, s.newLine, section.comments, section.properties);
    b := AppendCommentsAndProperties(s, builder + header, section.comments, section.properties);
    FlattenAppend([header], body);
    assert Flatten([header]) == header;
    AppendAssoc(builder, header, Flatten(body));
  }

  /** SerializeAsString, as written: a null container is rejected; an empty
      one yields the empty string; otherwise the global scope and then every
      written section are appended. When NormalizeBeforeSerialization is set
      the normalizer runs, but its result, a new container, is discarded, so
      the text is that of the container as given. */
  method SerializeAsString(s: Serializer, container: Option<Container>) returns (r: Result<string>)
    ensures container.None? ==> r == Failure(ArgumentNull("container"))
    ensures container.Some? ==> r == Success(Render(s.options, s.newLine, container.value))
    ensures container.Some? && IsEmpty(container.value) ==> r == Success("")
  {
    if container.None? {
      return Failure(ArgumentNull("container"));
    }
    var c := container.value;
    var o, nl := s.options, s.newLine;
    if |c.globalComments| == 0 && |c.globalProperties| == 0 && |c.sections| == 0 {
      EmptyDocumentRendersEmpty(o, nl, c);
      return Success("");
    }

    if o.normalizeBeforeSerialization {
      var discarded := Normalize(s.normalizer, c);
    }

    var b := AppendCommentsAndProperties(s, "", c.globalComments, c.globalProperties);
    assert "" + Flatten(ScopeLines(o, nl, c.globalComments, c.globalProperties))
        == Flatten(ScopeLines(o, nl, c.globalComments, c.globalProperties));
    b := AppendSections(s, b, c.sections);
    FlattenAppend(ScopeLines(o, nl, c.globalComments, c.globalProperties), SectionsLines(o, nl, c.sections));
    return Success(b);
  }

  /** Appends the sections in container order. When empty sections are
      excluded, a section with no comments and no properties is skipped; the
      test is on the raw counts, so a section whose properties are all
      filtered out still gets its header. */
  method AppendSections(s: Serializer, builder: string, sections: seq<Section>) returns (b: string)
    ensures b == builder + Flatten(SectionsLines(s.options, s.newLine, sections))
  {
    var o, nl := s.options, s.newLine;
    b := builder;
    if o.includeEmptySections {
      for i := 0 to |sections|
        invariant b == builder + Flatten(SectionsLines(o, nl, sections[..i]))
      {
        SectionsTextStep(o, nl, sections, i);
        AppendAssoc(builder, Flatten(SectionsLines(o, nl, sections[..i])), Flatten(SectionLines(o, nl, sections[i])));
        b := AppendSection(s, b, sections[i]);
      }
    } else {
      for i := 0 to |sections|
        invariant b == builder + Flatten(SectionsLines(o, nl, sections[..i]))
      {
        SectionsTextStep(o, nl, sections, i);
        if |sections[i].comments| == 0 && |sections[i].properties| == 0 {
          continue;
        }
        AppendAssoc(builder, Flatten(SectionsLines(o, nl, sections[..i])), Flatten(SectionLines(o, nl, sections[i])));
        b := AppendSection(s, b, sections[i]);
      }
    }
    assert sections[..|sections|] == sections;
  }

  /** Serialization with NormalizeBeforeSerialization taking effect: the
      emptiness short-circuit looks at the container as given, and the text
      is then that of the normalized container. */
  function SerializeAsStringCorrected(s: Serializer, c: Container): (r: string)
    ensures IsEmpty(c) ==> r == ""
    ensures !s.options.normalizeBeforeSerialization ==> r == Render(s.options, s.newLine, c)
  {
    if IsEmpty(c) then ""
    else
      var toWrite := if s.options.normalizeBeforeSerialization then Normalize(s.normalizer, c) else c;
      Render(s.options, s.newLine, toWrite)
  }

  /** With NormalizeBeforeSerialization set and a normalizer with default
      comment options, every global comment line of a non-empty document
      belongs to a comment that is neither null nor white space: the text is
      the lines of the retained comments followed by the rest of the
      normalized document. */
  lemma NormalizedSerializationDropsBlankComments(s: Serializer, c: Container)
    requires s.options.normalizeBeforeSerialization
    requires KeepsGlobalComments(s.normalizer, false)
    requires !IsEmpty(c)
    ensures var kept := KeptComments(c.globalComments, false);
      && (forall k :: 0 <= k < |kept| ==> !IsNullOrWhiteSpace(kept[k]))
      && SerializeAsStringCorrected(s, c)
         == Flatten(CommentLines(s.options, s.newLine, kept))
          + Render(s.options, s.newLine, Normalize(s.normalizer, c).(globalComments := []))
  {
    var normalized := Normalize(s.normalizer, c);
    GlobalCommentsLead(s.options, s.newLine, normalized);
    DefaultNormalizationDropsBlankComments(s.normalizer, c);
  }

  /** The container with a single empty global comment. */
  function SingleEmptyComment(): (c: Container) {
    Container([Some("")], [], [])
  }

  /** The as-written serializer ignores NormalizeBeforeSerialization. For a
      document whose only content is an empty global comment, and a
      normalizer that removes it (as the default normalizer options do), the
      text SerializeAsString returns still holds the comment line, while the
      normalized document, and so the corrected serialization, is empty. */
  lemma NormalizeFlagIgnoredAsWritten(s: Serializer)
    requires s.options.normalizeBeforeSerialization
    requires Normalize(s.normalizer, SingleEmptyComment()) == EmptyContainer()
    ensures Render(s.options, s.newLine, SingleEmptyComment()) == s.options.commentIndicator + s.newLine
    ensures SerializeAsStringCorrected(s, SingleEmptyComment()) == ""
  {
    var c := SingleEmptyComment();
    GlobalCommentsLead(s.options, s.newLine, c);
    EmptyDocumentRendersEmpty(s.options, s.newLine, c.(globalComments := []));
    EmptyDocumentRendersEmpty(s.options, s.newLine, EmptyContainer());
    assert Flatten([CommentLine(s.options, s.newLine, Some(""))]) == s.options.commentIndicator + s.newLine;
    assert CommentLines(s.options, s.newLine, c.globalComments) == [CommentLine(s.options, s.newLine, Some(""))];
  }

  /** SerializeToTextWriter: a null container, then a null writer, is
      rejected; otherwise the text SerializeAsString returns is written after
      whatever the writer already holds, which is left as it was. */
  method SerializeToTextWriter(s: Serializer, container: Option<Container>, writer: Option<TextWriter>)
    returns (r: Result<TextWriter>)
    ensures container.None? ==> r == Failure(ArgumentNull("container"))
    ensures container.Some? && writer.None? ==> r == Failure(ArgumentNull("writer"))
    ensures r.Success? <==> container.Some? && writer.Some?
    ensures r.Success? ==>
      && |writer.value.text| <= |r.value.text|
      && r.value.text[..|writer.value.text|] == writer.value.text
      && r.value.text[|writer.value.text|..] == Render(s.options, s.newLine, container.value)
  {
    if container.None? {
      return Failure(ArgumentNull("container"));
    }
    if writer.None? {
      return Failure(ArgumentNull("writer"));
    }
    var serializationResult := SerializeAsString(s, container);
    var before := writer.value.text;
    var written := before + serializationResult.value;
    assert written[..|before|] == before;
    assert written[|before|..] == serializationResult.value;
    r := Success(TextWriter(written));
  }

  /** SerializeToTextWriter with NormalizeBeforeSerialization taking effect:
      the same argument checks, then the corrected serialization is written
      after the writer's existing text. */
  function SerializeToTextWriterNormalized(s: Serializer, container: Option<Container>, writer: Option<TextWriter>)
    : (r: Result<TextWriter>)
    ensures container.None? ==> r == Failure(ArgumentNull("container"))
    ensures container.Some? && writer.None? ==> r == Failure(ArgumentNull("writer"))
    ensures r.Success? <==> container.Some? && writer.Some?
    ensures r.Success? ==>
      && |writer.value.text| <= |r.value.text|
      && r.value.text[..|writer.value.text|] == writer.value.text
      && r.value.text[|writer.value.text|..] == SerializeAsStringCorrected(s, container.value)
  {
    if container.None? then Failure(ArgumentNull("container"))
    else if writer.None? then Failure(ArgumentNull("writer"))
    else Success(TextWriter(writer.value.text + SerializeAsStringCorrected(s, container.value)))
  }
}
