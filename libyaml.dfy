/**
 * The tokens the libyaml scanner hands to the tree builder.
 *
 * The scanner itself (byte decoding, indentation, escapes) is not part of
 * this model: a scan is a read of one element of a finite token sequence.
 */
module LibYaml {

  /** Character encoding announced by the STREAM-START token. */
  datatype Encoding = AnyEncoding | Utf8 | Utf16LE | Utf16BE

  /** The presentation style of a scalar; the tree builder discards it. */
  datatype ScalarStyle = AnyStyle | Plain | SingleQuoted | DoubleQuoted | Literal | Folded

  /**
   * One lexical token, one constructor per libyaml token kind, in the order
   * of libyaml's token-type enumeration. NoToken is what the scanner yields
   * once the stream end has been produced (it zeroes the token it fills).
   */
  datatype Token =
    | NoToken
    | StreamStart(encoding: Encoding)
    | StreamEnd
    | VersionDirective(major: int, minor: int)
    | TagDirective(handle: string, prefix: string)
    | DocumentStart
    | DocumentEnd
    | BlockSequenceStart
    | BlockMappingStart
    | BlockEnd
    | FlowSequenceStart
    | FlowSequenceEnd
    | FlowMappingStart
    | FlowMappingEnd
    | BlockEntry
    | FlowEntry
    | Key
    | Value
    | Alias(name: string)
    | Anchor(name: string)
    | Tag(handle: string, suffix: string)
    | Scalar(text: string, style: ScalarStyle)

  /**
   * The token a scan at cursor `pos` obtains: the element at `pos`, or
   * NoToken once the sequence is used up.
   */
  function TokenAt(toks: seq<Token>, pos: nat): Token
  {
    if pos < |toks| then toks[pos] else NoToken
  }

  /**
   * The OCaml runtime's string copy measures its argument with strlen, so
   * the copied text ends before the first NUL character.
   */
  function CopyString(s: string): (r: string)
    ensures r <= s
    ensures '\0' !in r
    ensures |r| < |s| ==> s[|r|] == '\0'
  {
    if s == [] || s[0] == '\0' then [] else [s[0]] + CopyString(s[1..])
  }
}
