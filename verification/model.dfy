/** The in-memory INI document: properties, sections and the container that
    owns them. Strings the source allows to be null (a property value, a
    comment line) are `Option<string>` here; `None` and `Some("")` are
    distinct values. */
module IniModel {

  datatype Option<+T> = None | Some(value: T)

  /** The one error the modelled entry points raise: a required argument was
      null. `paramName` is the parameter the source names in its
      ArgumentNullException. */
  datatype Error = ArgumentNull(paramName: string)

  datatype Result<+T> = Success(value: T) | Failure(error: Error)

  /** A name/value pair; the value may be absent. */
  datatype Property = Property(name: string, value: Option<string>)

  /** A named scope with its own ordered comment lines and properties. */
  datatype Section = Section(name: string, comments: seq<Option<string>>, properties: seq<Property>)

  /** One INI document: the comments and properties that precede every
      section, then the sections in document order. */
  datatype Container = Container(
    globalComments: seq<Option<string>>,
    globalProperties: seq<Property>,
    sections: seq<Section>)

  /** A document with no global comment, no global property and no section. */
  predicate IsEmpty(c: Container) {
    |c.globalComments| == 0 && |c.globalProperties| == 0 && |c.sections| == 0
  }

  /** A freshly constructed container (`new IniContainer()`). */
  function EmptyContainer(): (c: Container)
    ensures IsEmpty(c)
  {
    Container([], [], [])
  }

  /** The characters .NET's Char.IsWhiteSpace accepts: the Unicode space,
      line and paragraph separators, U+0009 to U+000D and U+0085. */
  predicate IsWhiteSpace(ch: char) {
    || ch == ' '
    || ('\t' <= ch <= '\r')
    || ch == '\U{85}'
    || ch == '\U{A0}'
    || ch == '\U{1680}'
    || ('\U{2000}' <= ch <= '\U{200A}')
    || ch == '\U{2028}'
    || ch == '\U{2029}'
    || ch == '\U{202F}'
    || ch == '\U{205F}'
    || ch == '\U{3000}'
  }

  /** Every character of `text` is white space (vacuously so for ""). */
  predicate IsAllWhiteSpace(text: string) {
    |text| == 0 || (IsWhiteSpace(text[0]) && IsAllWhiteSpace(text[1..]))
  }

  /** string.IsNullOrWhiteSpace: null, empty, or made only of white space. */
  predicate IsNullOrWhiteSpace(s: Option<string>) {
    match s
    case None => true
    case Some(text) => IsAllWhiteSpace(text)
  }

  /** `s ?? string.Empty`; also what StringBuilder.Append does with null. */
  function OrEmpty(s: Option<string>): (r: string) {
    match s
    case None => ""
    case Some(text) => text
  }
}
