/** The bounds that whatever comes from a peer or a file has to meet (electron/main/untrusted-input.ts). */
module UntrustedInput {

  const MAX_TEXT_LENGTH := 512
  const MAX_ID_LENGTH := 4096

  /** What trimming takes away. */
  const WHITESPACE: string :=
    " \t\n\r\U{B}\U{C}\U{A0}\U{1680}\U{2000}\U{2001}\U{2002}\U{2003}\U{2004}\U{2005}\U{2006}\U{2007}\U{2008}\U{2009}\U{200A}"
    + "\U{2028}\U{2029}\U{202F}\U{205F}\U{3000}\U{FEFF}"

  predicate ValidText(s: string, max: nat) { 0 < |s| <= max }
}
