# SimpleSoft.IniParser: serialization and normalization wrappers in Dafny

This project models the core of SimpleSoft.IniParser that turns an in-memory
INI document into text, together with the normalization wrappers the
serializer relies on.

- **Document model** (`model.dfy`, module `IniModel`). A `Container` holds
  global comments, global properties and an ordered list of `Section`s. A
  section has a name, comments and properties. A `Property` is a name and an
  optional value. Nullable strings are `Option<string>`, so a null value and
  `""` stay distinct. `IsNullOrWhiteSpace` is .NET's `string.IsNullOrWhiteSpace`
  over the character set of `Char.IsWhiteSpace`.
- **Sequence tools** (`seqs.dfy`, module `Seqs`). `Filter` is an
  order-preserving selection. `KeptIndices` independently lists the positions
  a filter keeps, and `FilterAtKeptIndices` ties the two together. `Flatten`
  concatenates lines.
- **Rendering** (`rendering.dfy`, module `Rendering`). This is the reference
  definition of the serialized text. A document is a list of lines, each with
  its line break, and the text is their concatenation. The lemmas state the
  layout promises: the global block first, sections in order, comments never
  dropped, blank properties skipped exactly when configured, and section
  emptiness judged on raw counts.
- **Serializer** (`serializer.dfy`, module `IniSerializer`). Methods mirror
  `SerializeAsString`, `AppendSection` and `AppendCommentsAndProperties` loop
  by loop, building the text with a string builder. Each method is proved to
  produce exactly the `Rendering` text. `SerializeToTextWriter` keeps its
  null-argument checks and writes the text `SerializeAsString` returns after
  the writer's existing text. `SerializeAsStringCorrected` and
  `SerializeToTextWriterNormalized` are the corrected counterparts in which
  NormalizeBeforeSerialization takes effect (see Findings).
- **Normalization wrappers** (`normalization.dfy`, module `Normalization`).
  These model `Normalize` and `TryNormalize`, for containers and for sections.
  They work over an abstract `Normalizer` that carries `NormalizeInto` and
  `TryNormalizeInto` as functions. The section forms return only the
  comments and properties they leave in the destination, so a normalized
  section's name is the one it was constructed with. Only the global comment filtering that the
  normalizer's tests pin down is stated about it, as `KeepsGlobalComments`.

The platform line terminator (`Environment.NewLine`) is a parameter: the
serializer's `newLine` field, and `nl` in `Rendering`.

The model follows the code on two points:

- Section emptiness is judged on the raw comment and property counts
  (`IniSerializer.cs:83`), not on the counts after filtering.
- `NormalizeBeforeSerialization` has no effect as written (see Findings).

## Model

| member | source | states |
|---|---|---|
| IniSerializer.SerializeAsString | src/SimpleSoft.IniParser/Impl/IniSerializer.cs:55-90 | A null container fails with ArgumentNull("container"). Otherwise the built text equals the reference rendering of the container as given, whatever NormalizeBeforeSerialization says. An empty container gives "". |
| IniSerializer.AppendSections | src/SimpleSoft.IniParser/Impl/IniSerializer.cs:72-87 | Both loops, with and without IncludeEmptySections, append exactly the reference text of the sections that are written, in container order. |
| IniSerializer.AppendSection | src/SimpleSoft.IniParser/Impl/IniSerializer.cs:134-142 | Appends `[` + name + `]` + newline, then the section's comments and properties. |
| IniSerializer.AppendCommentsAndProperties | src/SimpleSoft.IniParser/Impl/IniSerializer.cs:144-174 | Appends the scope's comment lines, then its property lines. |
| IniSerializer.AppendComments | src/SimpleSoft.IniParser/Impl/IniSerializer.cs:147-151 | The comment loop appends indicator + comment (null gives "") + newline for every comment, skipping none. |
| IniSerializer.AppendProperties | src/SimpleSoft.IniParser/Impl/IniSerializer.cs:153-173 | Both property loops append exactly the reference property lines. The first covers every property; the second skips a property exactly when its value is null or white space. |
| IniSerializer.SerializeToTextWriter | src/SimpleSoft.IniParser/Impl/IniSerializer.cs:98-110 | A null container fails first, then a null writer. The result succeeds exactly when both are present. The writer's earlier text is kept as a prefix, and what follows it is the text SerializeAsString returns: the rendering of the container as given. |
| IniSerializer.SerializeToTextWriterNormalized | src/SimpleSoft.IniParser/Impl/IniSerializer.cs:98-110 | Corrected writer: the same argument checks and prefix, followed by the corrected serialization. |
| IniSerializer.SerializeAsStringCorrected | src/SimpleSoft.IniParser/Impl/IniSerializer.cs:60-66 | Corrected serialization: an empty container gives ""; with the flag off the text is the rendering of the container as given. |
| IniSerializer.NormalizedSerializationDropsBlankComments | src/SimpleSoft.IniParser/Impl/IniSerializer.cs:65-70 | With the flag set and a default-options normalizer, the corrected text starts with lines for exactly the non-blank global comments. None of those comments is null or white space. The rest of the normalized document follows. |
| IniSerializer.NormalizeFlagIgnoredAsWritten | src/SimpleSoft.IniParser/Impl/IniSerializer.cs:65-66 | Take a container whose only content is an empty comment, with a normalizer that empties it. As written, the text is the indicator + newline. The corrected serialization gives "". |
| Rendering.EmptyDocumentRendersEmpty | src/SimpleSoft.IniParser/Impl/IniSerializer.cs:60-63 | A container with no global comments, no global properties and no sections renders as "", under every option setting. |
| Rendering.GlobalBlockPrecedesSections | src/SimpleSoft.IniParser/Impl/IniSerializer.cs:70-87 | The text is the global block's text followed by the sections' text, so no section text precedes a global line. |
| Rendering.GlobalCommentsLead | src/SimpleSoft.IniParser/Impl/IniSerializer.cs:147-151 | The global comments open the document with one line each, under every option setting. The rest of the text is the document without them. |
| Rendering.NullCommentRendersAsEmpty | src/SimpleSoft.IniParser/Impl/IniSerializer.cs:147-151 | A null comment is not dropped. It renders as the indicator + newline, exactly as an empty comment does. |
| Rendering.BlankPropertiesSkipped | src/SimpleSoft.IniParser/Impl/IniSerializer.cs:164-172 | With IncludeEmptyProperties false, a property gets a line if and only if its value is not null or white space. Line k is the exact line of the k-th such property, in original order. |
| Rendering.AllPropertiesWrittenWhenIncluded | src/SimpleSoft.IniParser/Impl/IniSerializer.cs:153-161 | With IncludeEmptyProperties true, there is one property line per property, in order, each Name + delimiter + (value or "") + newline. |
| Rendering.NullValueRendersAsEmpty | src/SimpleSoft.IniParser/Impl/IniSerializer.cs:164-171 | A global property with a null value renders exactly as one whose value is "". Both are skipped or both are written with an empty value. |
| Rendering.SectionOmittedIff | src/SimpleSoft.IniParser/Impl/IniSerializer.cs:72-86 | A section produces no text if and only if IncludeEmptySections is false and it has zero comments and zero properties. |
| Rendering.WhiteSpaceOnlySectionKeepsHeader | src/SimpleSoft.IniParser/Impl/IniSerializer.cs:81-86 | Take a section with no comments whose properties all have null or white-space values, with empty properties excluded. It still renders its `[Name]` header, and nothing else. |
| Rendering.SectionText | src/SimpleSoft.IniParser/Impl/IniSerializer.cs:137-141 | A written section's text is its header line, then its comment lines, then its property lines. |
| Rendering.RenderAppendSection | src/SimpleSoft.IniParser/Impl/IniSerializer.cs:74-86 | Appending a section to a container appends that section's block to the text, or nothing when the section is skipped. |
| Rendering.SectionsLinesAppend | src/SimpleSoft.IniParser/Impl/IniSerializer.cs:74-77 | The lines of two runs of sections are the first run's lines followed by the second's, so sections appear in container order. |
| Normalization.Normalize | src/SimpleSoft.IniParser/NormalizerExtensions.cs:14-20 | The result is NormalizeInto applied to the source and a fresh empty container. |
| Normalization.TryNormalize | src/SimpleSoft.IniParser/NormalizerExtensions.cs:29-41 | Reports success exactly when TryNormalizeInto succeeds on a fresh container. A container is returned exactly on success, and it is the filled one. On failure no partial result escapes. |
| Normalization.NormalizeSection | src/SimpleSoft.IniParser/NormalizerExtensions.cs:49-55 | The result carries the source section's name, given to the fresh destination, and the comments and properties NormalizeInto left in it. |
| Normalization.TryNormalizeSection | src/SimpleSoft.IniParser/NormalizerExtensions.cs:64-76 | Like TryNormalize. A returned section always carries the source's name. |
| Normalization.DefaultNormalizationDropsBlankComments | test/SimpleSoft.IniParser.Tests/Normalization/IniNormalizerIniContainerTests.cs:36-46 | With default options, the normalized global comments are exactly the non-blank source comments, in original order. None of them is null or white space, and each non-blank one is kept. |
| Normalization.IncludeEmptyCommentsKeepsAll | test/SimpleSoft.IniParser.Tests/Normalization/IniNormalizerIniContainerTests.cs:49-59 | With IncludeEmptyComments, the global comments come through unchanged, null and empty ones included. |
| Normalization.DefaultOptionsRemoveEmptyComments | test/SimpleSoft.IniParser.Tests/Normalization/IniNormalizerIniContainerTests.cs:36-46 | On the test's container, the result's global comments are non-empty and none is null or white space. |
| Normalization.IncludeEmptyOptionKeepsEmptyComments | test/SimpleSoft.IniParser.Tests/Normalization/IniNormalizerIniContainerTests.cs:49-59 | On the test's container, the comment count is unchanged and a blank comment remains. |
| Normalization.GlobalCommentNormalizationIdempotent | test/SimpleSoft.IniParser.Tests/Normalization/IniNormalizerIniContainerTests.cs:36-59 | Under the pinned comment filtering, normalizing twice gives the same global comments as normalizing once. |

## Left out

- SerializeToTextWriterAsync (IniSerializer.cs:120-132) does the same work as SerializeToTextWriter, with an asynchronous write and flush, which are I/O and are not modelled. Its cancellation token `ct` is accepted but never used: neither WriteAsync nor FlushAsync receives it. Because the method is `async`, the ArgumentNullExceptions of its null checks (lines 122-125) reach the caller through the returned task, not at the call; this distinction is not modelled.
- Writing to and flushing the TextWriter are modelled as appending to the writer's text. Write failures are I/O and are not modelled.
- The serializer constructors and their null checks (IniSerializer.cs:21-38) are left out, as are the default option values. The options and the normalizer are parameters.
- The concrete IniNormalizer.NormalizeInto/TryNormalizeInto is not part of this model. It stays abstract, constrained only by the global comment filtering its tests assert. No property- or section-level normalization is assumed.
- Null arguments to the NormalizerExtensions wrappers are not modelled: they are NullReferenceExceptions, not checked errors. A null normalizer throws at the wrapper's own call (NormalizerExtensions.cs:17, 33, 52, 68). A null source section throws when the wrapper reads `source.Name` (lines 51, 67), before the normalizer runs. A null source container is passed on to the normalizer, which is not part of this model.
- Environment.NewLine is a parameter, not a fixed string.
- IsWhiteSpace is the documented Char.IsWhiteSpace set. Only the examples from the tests depend on its exact contents.
- AppendSection, AppendComments and AppendProperties append each line as one string. The source builds a header with three calls: `Append('[')`, `Append(Name)` and `AppendLine("]")` (IniSerializer.cs:137-139). It builds a comment line with two calls, Append and AppendLine (lines 149-150). It builds a property line with three calls, two Appends and an AppendLine (lines 157-159 and 169-171). The resulting text is the same.
- The parser that builds containers, and any uniqueness of names within a scope, are outside this core.
- IniSerializer.SerializeAsStringCorrected: returns only the text. The in-place replacement of the caller's container that the corrected behaviour implies is not modelled.
- Normalization.NormalizeSection: the abstract section operation returns only comments and properties, so the result's name is the source's by construction. This relies on IniSection.Name being fixed at construction; IniSection is not part of this model.
- Normalization.TryNormalizeSection: likewise, a returned section carries the source's name because the section operation cannot change it. This relies on the same assumption about IniSection.Name.
- Normalization.Normalize: NormalizeInto is taken to succeed on every non-null source. The exceptions it may throw, which would leave Normalize uncaught, are not modelled; TryNormalize is the form that reports failure.
- IniSerializer.SerializeAsString: with NormalizeBeforeSerialization set, the call to Normalize (IniSerializer.cs:66) is taken to succeed, as NormalizeInto is total here. An exception thrown by the normalizer, which would leave SerializeAsString and SerializeToTextWriter uncaught, is not modelled.
- Normalization.Normalize: states that the result is what NormalizeInto leaves in a fresh container. "A different object from the source" has no counterpart for immutable values.

## Findings

| source | as written | input that shows it | evidently intended | confidence | as-written member | corrected member |
|---|---|---|---|---|---|---|
| src/SimpleSoft.IniParser/Impl/IniSerializer.cs:65-66 | `Normalizer.Normalize(container)` resolves to the NormalizerExtensions wrapper, which builds a new normalized container; the result is discarded and the original container is written | NormalizeBeforeSerialization = true, default normalizer options, a container whose only content is one empty global comment: the text is the comment indicator + newline | the normalized container is written; here it is empty, so the text is "" | medium, not executed (IIniNormalizer itself is not part of this model) | IniSerializer.SerializeAsString, IniSerializer.SerializeToTextWriter, IniSerializer.NormalizeFlagIgnoredAsWritten | IniSerializer.SerializeAsStringCorrected, IniSerializer.SerializeToTextWriterNormalized, IniSerializer.NormalizedSerializationDropsBlankComments |
