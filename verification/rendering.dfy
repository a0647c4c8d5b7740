/** The text the serializer produces, defined declaratively: a document is a
    sequence of lines, each already carrying its line terminator, and the
    output is their concatenation. `nl` is the platform line terminator that
    StringBuilder.AppendLine writes (Environment.NewLine). */
module Rendering {
  import opened IniModel
  import opened Seqs

  /** IniSerializationOptions. NormalizeBeforeSerialization is read by the
      serializer, not by the rendering. */
  datatype SerializationOptions = SerializationOptions(
    normalizeBeforeSerialization: bool,
    includeEmptySections: bool,
    includeEmptyProperties: bool,
    commentIndicator: string,
    propertyNameValueDelimiter: string)

  /** A comment line: the indicator, the comment (nothing for null), a line break. */
  function CommentLine(o: SerializationOptions, nl: string, comment: Option<string>): (line: string) {
    o.commentIndicator + OrEmpty(comment) + nl
  }

  /** A property line: name, delimiter, value (nothing for null), a line break. */
  function PropertyLine(o: SerializationOptions, nl: string, p: Property): (line: string) {
    p.name + o.propertyNameValueDelimiter + OrEmpty(p.value) + nl
  }

  /** A section header line. */
  function HeaderLine(nl: string, name: string): (line: string) {
    "[" + name + "]" + nl
  }

  /** Whether a property gets a line: always when empty properties are
      included, otherwise only when its value is not null or white space. */
  function EmitsProperty(o: SerializationOptions): (emits: Property -> bool) {
    (p: Property) => o.includeEmptyProperties || !IsNullOrWhiteSpace(p.value)
  }

  function EmittedProperties(o: SerializationOptions, properties: seq<Property>): (r: seq<Property>) {
    Filter(properties, EmitsProperty(o))
  }

  /** One line per comment: the serializer never drops a comment. */
  function CommentLines(o: SerializationOptions, nl: string, comments: seq<Option<string>>): (lines: seq<string>) {
    seq(|comments|, i requires 0 <= i < |comments| => CommentLine(o, nl, comments[i]))
  }

  /** One line per emitted property, in their original order. */
  function PropertyLines(o: SerializationOptions, nl: string, properties: seq<Property>): (lines: seq<string>) {
    var emitted := EmittedProperties(o, properties);
    seq(|emitted|, i requires 0 <= i < |emitted| => PropertyLine(o, nl, emitted[i]))
  }

  /** The lines of one scope (the global scope or a section body): its
      comments, then its properties. */
  function ScopeLines(o: SerializationOptions, nl: string, comments: seq<Option<string>>, properties: seq<Property>): (lines: seq<string>) {
    CommentLines(o, nl, comments) + PropertyLines(o, nl, properties)
  }

  /** Whether a section is written. Emptiness is judged on the section's raw
      comment and property counts, before any property is filtered out. */
  predicate IsRenderedSection(o: SerializationOptions, s: Section) {
    o.includeEmptySections || |s.comments| != 0 || |s.properties| != 0
  }

  /** A written section: its header, then its body. */
  function SectionLines(o: SerializationOptions, nl: string, s: Section): (lines: seq<string>) {
    [HeaderLine(nl, s.name)] + ScopeLines(o, nl, s.comments, s.properties)
  }

  /** The lines of the written sections, in container order. */
  function SectionsLines(o: SerializationOptions, nl: string, sections: seq<Section>): (lines: seq<string>) {
    if |sections| == 0 then []
    else
      var last := sections[|sections| - 1];
      SectionsLines(o, nl, sections[..|sections| - 1])
        + (if IsRenderedSection(o, last) then SectionLines(o, nl, last) else [])
  }

  /** All lines of a document: the global scope, then the sections. */
  function DocumentLines(o: SerializationOptions, nl: string, c: Container): (lines: seq<string>) {
    ScopeLines(o, nl, c.globalComments, c.globalProperties) + SectionsLines(o, nl, c.sections)
  }

  /** The serialized text of a document. */
  function Render(o: SerializationOptions, nl: string, c: Container): (text: string) {
    Flatten(DocumentLines(o, nl, c))
  }

  /** Adding one property to a scope adds its line at the end exactly when
      the property is emitted. */
  lemma PropertyLinesSnoc(o: SerializationOptions, nl: string, properties: seq<Property>, p: Property)
    ensures PropertyLines(o, nl, properties + [p])
         == PropertyLines(o, nl, properties) + (if EmitsProperty(o)(p) then [PropertyLine(o, nl, p)] else [])
  {
    assert (properties + [p])[..|properties|] == properties;
  }

  /** The text of a scope's property lines grows by the next property's
      line exactly when that property is written. */
  lemma PropertyTextStep(o: SerializationOptions, nl: string, properties: seq<Property>, i: nat)
    requires i < |properties|
    ensures Flatten(PropertyLines(o, nl, properties[..i + 1]))
         == Flatten(PropertyLines(o, nl, properties[..i]))
          + (if o.includeEmptyProperties || !IsNullOrWhiteSpace(properties[i].value) then PropertyLine(o, nl, properties[i]) else "")
  {
    var p := properties[i];
    var before := PropertyLines(o, nl, properties[..i]);
    PropertyLinesSnoc(o, nl, properties[..i], p);
    assert properties[..i + 1] == properties[..i] + [p];
    assert EmitsProperty(o)(p) == (o.includeEmptyProperties || !IsNullOrWhiteSpace(p.value));
    if EmitsProperty(o)(p) {
      FlattenSnoc(before, PropertyLine(o, nl, p));
    } else {
      assert before + [] == before;
      assert Flatten(before) + "" == Flatten(before);
    }
  }

  /** The text of a scope's comment lines grows by the next comment's line. */
  lemma CommentTextStep(o: SerializationOptions, nl: string, comments: seq<Option<string>>, i: nat)
    requires i < |comments|
    ensures Flatten(CommentLines(o, nl, comments[..i + 1]))
         == Flatten(CommentLines(o, nl, comments[..i])) + CommentLine(o, nl, comments[i])
  {
    CommentLinesSnoc(o, nl, comments[..i], comments[i]);
    assert comments[..i + 1] == comments[..i] + [comments[i]];
    FlattenSnoc(CommentLines(o, nl, comments[..i]), CommentLine(o, nl, comments[i]));
  }

  /** Adding one comment to a scope adds its line at the end. */
  lemma CommentLinesSnoc(o: SerializationOptions, nl: string, comments: seq<Option<string>>, c: Option<string>)
    ensures CommentLines(o, nl, comments + [c]) == CommentLines(o, nl, comments) + [CommentLine(o, nl, c)]
  {
  }

  /** An empty document renders as the empty string, whatever the options. */
  lemma EmptyDocumentRendersEmpty(o: SerializationOptions, nl: string, c: Container)
    requires IsEmpty(c)
    ensures Render(o, nl, c) == ""
  {
    assert DocumentLines(o, nl, c) == [];
  }

  /** The section blocks of consecutive runs of sections follow each other:
      sections are written in container order. */
  lemma {:induction false} SectionsLinesAppend(o: SerializationOptions, nl: string, a: seq<Section>, b: seq<Section>)
    ensures SectionsLines(o, nl, a + b) == SectionsLines(o, nl, a) + SectionsLines(o, nl, b)
  {
    if |b| == 0 {
      assert a + b == a;
    } else {
      var init := b[..|b| - 1];
      assert (a + b)[..|a + b| - 1] == a + init;
      SectionsLinesAppend(o, nl, a, init);
    }
  }

  /** The whole global block (comments then properties) comes before any
      section text: a document renders as its global part followed by its
      sections part. */
  lemma GlobalBlockPrecedesSections(o: SerializationOptions, nl: string, c: Container)
    ensures Render(o, nl, c)
         == Render(o, nl, Container(c.globalComments, c.globalProperties, []))
          + Render(o, nl, Container([], [], c.sections))
  {
    var global := ScopeLines(o, nl, c.globalComments, c.globalProperties);
    var sections := SectionsLines(o, nl, c.sections);
    assert DocumentLines(o, nl, Container(c.globalComments, c.globalProperties, [])) == global;
    assert ScopeLines(o, nl, [], []) == [] by {
      assert EmittedProperties(o, []) == [];
    }
    assert DocumentLines(o, nl, Container([], [], c.sections)) == sections;
    FlattenAppend(global, sections);
  }

  /** The global comments lead the document, one line each, null and blank
      ones included, under every option setting; the rest of the document is
      what it would be without them. */
  lemma GlobalCommentsLead(o: SerializationOptions, nl: string, c: Container)
    ensures Render(o, nl, c)
         == Flatten(CommentLines(o, nl, c.globalComments)) + Render(o, nl, c.(globalComments := []))
    ensures |CommentLines(o, nl, c.globalComments)| == |c.globalComments|
  {
    var comments := CommentLines(o, nl, c.globalComments);
    var rest := PropertyLines(o, nl, c.globalProperties) + SectionsLines(o, nl, c.sections);
    assert DocumentLines(o, nl, c) == comments + rest;
    assert DocumentLines(o, nl, c.(globalComments := [])) == rest;
    FlattenAppend(comments, rest);
  }

  /** A written section's text is its header line, then its comment lines,
      then its property lines. */
  lemma SectionText(o: SerializationOptions, nl: string, s: Section)
    ensures Flatten(SectionLines(o, nl, s))
         == HeaderLine(nl, s.name) + Flatten(CommentLines(o, nl, s.comments)) + Flatten(PropertyLines(o, nl, s.properties))
  {
    var header := [HeaderLine(nl, s.name)];
    var comments := CommentLines(o, nl, s.comments);
    var properties := PropertyLines(o, nl, s.properties);
    AppendAssoc(header, comments, properties);
    FlattenAppend(header + comments, properties);
    FlattenAppend(header, comments);
    assert Flatten(header) == HeaderLine(nl, s.name);
  }

  /** The text of the written sections grows by the next section's block
      exactly when that section is written. */
  lemma SectionsTextStep(o: SerializationOptions, nl: string, sections: seq<Section>, i: nat)
    requires i < |sections|
    ensures Flatten(SectionsLines(o, nl, sections[..i + 1]))
         == Flatten(SectionsLines(o, nl, sections[..i]))
          + (if IsRenderedSection(o, sections[i]) then Flatten(SectionLines(o, nl, sections[i])) else "")
  {
    var prefix := sections[..i + 1];
    var before := SectionsLines(o, nl, sections[..i]);
    assert prefix[..i] == sections[..i] && prefix[i] == sections[i];
    if IsRenderedSection(o, sections[i]) {
      assert SectionsLines(o, nl, prefix) == before + SectionLines(o, nl, sections[i]);
      FlattenAppend(before, SectionLines(o, nl, sections[i]));
    } else {
      assert SectionsLines(o, nl, prefix) == before + [];
      assert before + [] == before;
      assert Flatten(before) + "" == Flatten(before);
    }
  }

  /** Appending a section to a document appends that section's block: its
      header, its comments, then its properties, or nothing when the section
      is not written. */
  lemma RenderAppendSection(o: SerializationOptions, nl: string, c: Container, s: Section)
    ensures Render(o, nl, c.(sections := c.sections + [s]))
         == Render(o, nl, c)
          + (if IsRenderedSection(o, s)
             then HeaderLine(nl, s.name)
                + Flatten(CommentLines(o, nl, s.comments))
                + Flatten(PropertyLines(o, nl, s.properties))
             else "")
  {
    var sections := c.sections + [s];
    var global := ScopeLines(o, nl, c.globalComments, c.globalProperties);
    var before := SectionsLines(o, nl, c.sections);
    var after := SectionsLines(o, nl, sections);
    assert sections[..|c.sections|] == c.sections;
    SectionsTextStep(o, nl, sections, |c.sections|);
    assert sections[..|c.sections| + 1] == sections;
    FlattenAppend(global, after);
    FlattenAppend(global, before);
    SectionText(o, nl, s);
    var blockText := if IsRenderedSection(o, s) then Flatten(SectionLines(o, nl, s)) else "";
    AppendAssoc(Flatten(global), Flatten(before), blockText);
  }

  /** A section produces no text exactly when empty sections are excluded
      and it has neither comments nor properties. */
  lemma SectionOmittedIff(o: SerializationOptions, nl: string, s: Section)
    ensures Flatten(SectionsLines(o, nl, [s])) == ""
        <==> !o.includeEmptySections && |s.comments| == 0 && |s.properties| == 0
  {
    assert [s][..0] == [];
    if IsRenderedSection(o, s) {
      var body := ScopeLines(o, nl, s.comments, s.properties);
      assert SectionsLines(o, nl, [s]) == [HeaderLine(nl, s.name)] + body;
      FlattenAppend([HeaderLine(nl, s.name)], body);
      assert Flatten([HeaderLine(nl, s.name)]) == HeaderLine(nl, s.name);
      assert |HeaderLine(nl, s.name)| >= 2;
    }
  }

  /** Section emptiness uses the raw counts: a section whose properties all
      have null or white-space values, and which has no comments, still
      writes its header, with no line beneath it, when empty properties are
      excluded. */
  lemma WhiteSpaceOnlySectionKeepsHeader(o: SerializationOptions, nl: string, s: Section)
    requires !o.includeEmptyProperties
    requires |s.comments| == 0 && |s.properties| != 0
    requires forall i :: 0 <= i < |s.properties| ==> IsNullOrWhiteSpace(s.properties[i].value)
    ensures Flatten(SectionsLines(o, nl, [s])) == HeaderLine(nl, s.name)
  {
    assert [s][..0] == [];
    FilterKeepsNone(s.properties, EmitsProperty(o));
    assert SectionsLines(o, nl, [s]) == [HeaderLine(nl, s.name)];
  }

  /** With empty properties excluded, the property lines of a scope are
      those of exactly the properties whose value is neither null nor white
      space, in their original relative order. */
  lemma BlankPropertiesSkipped(o: SerializationOptions, nl: string, properties: seq<Property>)
    requires !o.includeEmptyProperties
    ensures var lines := PropertyLines(o, nl, properties);
      var idx := KeptIndices(properties, EmitsProperty(o));
      && |lines| == |idx|
      && (forall k, l :: 0 <= k < l < |idx| ==> idx[k] < idx[l])
      && (forall k :: 0 <= k < |lines| ==> idx[k] < |properties| && lines[k] == PropertyLine(o, nl, properties[idx[k]]))
      && (forall i :: 0 <= i < |properties| ==> (i in idx <==> !IsNullOrWhiteSpace(properties[i].value)))
  {
    FilterAtKeptIndices(properties, EmitsProperty(o));
    forall i | 0 <= i < |properties|
      ensures i in KeptIndices(properties, EmitsProperty(o)) <==> !IsNullOrWhiteSpace(properties[i].value)
    {
      assert EmitsProperty(o)(properties[i]) <==> !IsNullOrWhiteSpace(properties[i].value);
    }
  }

  /** With empty properties included, every property has its own line, in order. */
  lemma AllPropertiesWrittenWhenIncluded(o: SerializationOptions, nl: string, properties: seq<Property>)
    requires o.includeEmptyProperties
    ensures |PropertyLines(o, nl, properties)| == |properties|
    ensures forall i :: 0 <= i < |properties| ==> PropertyLines(o, nl, properties)[i] == PropertyLine(o, nl, properties[i])
  {
    FilterKeepsAll(properties, EmitsProperty(o));
  }

  /** Two property lists whose properties are written under the same
      conditions and as the same lines produce the same property lines. */
  lemma {:induction false} PropertyLinesAgree(o: SerializationOptions, nl: string, ps: seq<Property>, qs: seq<Property>)
    requires |ps| == |qs|
    requires forall i :: 0 <= i < |ps| ==>
      IsNullOrWhiteSpace(ps[i].value) == IsNullOrWhiteSpace(qs[i].value)
      && PropertyLine(o, nl, ps[i]) == PropertyLine(o, nl, qs[i])
    ensures PropertyLines(o, nl, ps) == PropertyLines(o, nl, qs)
  {
    if |ps| != 0 {
      var n := |ps| - 1;
      assert ps == ps[..n] + [ps[n]];
      assert qs == qs[..n] + [qs[n]];
      PropertyLinesAgree(o, nl, ps[..n], qs[..n]);
      PropertyLinesSnoc(o, nl, ps[..n], ps[n]);
      PropertyLinesSnoc(o, nl, qs[..n], qs[n]);
    }
  }

  /** A global property whose value is null is written exactly as if its
      value were the empty string. */
  lemma NullValueRendersAsEmpty(o: SerializationOptions, nl: string, c: Container, i: nat)
    requires i < |c.globalProperties| && c.globalProperties[i].value.None?
    ensures Render(o, nl, c)
         == Render(o, nl, c.(globalProperties := c.globalProperties[i := c.globalProperties[i].(value := Some(""))]))
  {
    var ps := c.globalProperties;
    var qs := ps[i := ps[i].(value := Some(""))];
    PropertyLinesAgree(o, nl, ps, qs);
  }

  /** A null global comment is written exactly as an empty one: it is not
      dropped, and it yields a line holding only the comment indicator. */
  lemma NullCommentRendersAsEmpty(o: SerializationOptions, nl: string, c: Container, i: nat)
    requires i < |c.globalComments| && c.globalComments[i].None?
    ensures CommentLine(o, nl, c.globalComments[i]) == o.commentIndicator + nl
    ensures Render(o, nl, c) == Render(o, nl, c.(globalComments := c.globalComments[i := Some("")]))
  {
    var cs := c.globalComments;
    assert CommentLines(o, nl, cs) == CommentLines(o, nl, cs[i := Some("")]);
  }
}
