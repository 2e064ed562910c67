/** Bytes and the character decoding used to render buffered diagnostic output. */
module Charsets {

  /** One octet read from a worker pipe. */
  newtype byte = x: int | 0 <= x < 256

  /** The canonical name of the fixed 7-bit fallback encoding. */
  const US_ASCII: string := "US-ASCII"

  /** The Unicode replacement character a decoder substitutes for a malformed byte. */
  const REPLACEMENT: char := '\U{FFFD}'

  /**
   * The charset services of the JVM the handler runs in: which charset names it
   * supports, and how it decodes bytes under a supported name. Both are foreign to
   * the handler, so the model takes them as a value rather than defining them.
   */
  datatype Jvm = Jvm(supported: set<string>, decode: (seq<byte>, string) -> string)
  {
    /**
     * Every JVM supports US-ASCII, and decoding under that name is the fixed
     * decoder below. Nothing else about `decode` is assumed.
     */
    ghost predicate WellFormed() {
      && US_ASCII in supported
      && forall bytes :: decode(bytes, US_ASCII) == AsciiDecode(bytes)
    }
  }

  /** How the US-ASCII decoder renders one byte: itself if 7-bit, else the replacement. */
  function AsciiChar(b: byte): (c: char)
    ensures b < 128 ==> c as int == b as int
    ensures b >= 128 ==> c == REPLACEMENT
  {
    if b < 128 then b as int as char else REPLACEMENT
  }

  /** A 7-bit character, or the replacement marker. */
  predicate IsAsciiOrReplacement(c: char) {
    c as int < 128 || c == REPLACEMENT
  }

  /**
   * Decoding with US-ASCII: one character per byte, 7-bit bytes kept, every other
   * byte replaced, so the result is defined for every input.
   */
  function AsciiDecode(bytes: seq<byte>): (s: string)
    ensures |s| == |bytes|
    ensures forall i :: 0 <= i < |bytes| ==> s[i] == AsciiChar(bytes[i])
    ensures forall i :: 0 <= i < |s| ==> IsAsciiOrReplacement(s[i])
  {
    if bytes == [] then [] else [AsciiChar(bytes[0])] + AsciiDecode(bytes[1..])
  }

  /** Decoding distributes over concatenation of the byte buffer. */
  lemma AsciiDecodeAppend(a: seq<byte>, b: seq<byte>)
    ensures AsciiDecode(a + b) == AsciiDecode(a) + AsciiDecode(b)
  {
  }
}
