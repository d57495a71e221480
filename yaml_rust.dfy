/**
 * The types the builder borrows from the `yaml_rust` crate: the scanner's
 * position marker and scalar style, and the parser's event.  Only their shape
 * matters here; the scanner and parser that produce them are not modelled.
 */
module YamlRust {
  import opened Wrappers

  /** `yaml_rust::scanner::TScalarStyle`, including the misspelt `Foled` and the catch-all `Any`. */
  datatype TScalarStyle = Any | Plain | SingleQuoted | DoubleQuoted | Literal | Foled

  /** `yaml_rust::scanner::Marker`: byte index, line and column of an event. */
  datatype Marker = Marker(index: nat, line: nat, col: nat)

  /** The `TokenType::Tag(handle, suffix)` a scalar may carry as its explicit tag. */
  datatype Tag = Tag(handle: string, suffix: string)

  /**
   * `yaml_rust::Event`.  Anchor ids are `nat`, with 0 meaning "no anchor";
   * an alias carries the id of the anchor it refers to.
   */
  datatype Event =
    | Nothing
    | StreamStart
    | StreamEnd
    | DocumentStart
    | DocumentEnd
    | Alias(target: nat)
    | Scalar(text: string, style: TScalarStyle, anchor: nat, tag: Option<Tag>)
    | SequenceStart(anchor: nat)
    | SequenceEnd
    | MappingStart(anchor: nat)
    | MappingEnd
}
