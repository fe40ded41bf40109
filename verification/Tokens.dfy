/** The tokens that the scanner hands to the parser. */
module Tokens {
  import opened Events

  datatype Token =
    | StreamStartToken | StreamEndToken
    | VersionDirective(major: int, minor: int) | TagDirective(handle: string, prefix: string)
    | DocumentStartToken | DocumentEndToken
    | BlockSequenceStart | BlockMappingStart | BlockEnd
    | FlowSequenceStart | FlowSequenceEnd | FlowMappingStart | FlowMappingEnd
    | BlockEntry | FlowEntry | Key | Value
    | AliasToken(name: string) | Anchor(name: string) | Tag(handle: string, suffix: string)
    | ScalarToken(value: string, style: ScalarStyle)
}
