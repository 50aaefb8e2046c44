/** Kubernetes Secrets as the Admin client configuration reads them, the shape
    checks it applies to them, and the US-ASCII decoding of the client key pair. */
module Secrets {
  import opened Wrappers

  newtype byte = b: int | 0 <= b < 0x100

  /** A Kubernetes Secret reduced to what the configuration reads: its name,
      which appears in error messages, and its data section (entry name to the
      stored, base64-encoded value), which is None when the Secret has no data. */
  datatype Secret = Secret(name: string, data: Option<map<string, string>>)

  /** The two helpers of the operator's Util class that the configuration calls.
      Their bodies (base64 decoding, PEM concatenation) are not part of this
      model, so they are passed in and their results are only carried along. */
  datatype Codec = Codec(
    certsToPemString: Secret -> string,
    decodeFromSecret: (Secret, string) -> seq<byte>)

  const CrtSuffix := ".crt"
  const KeySuffix := ".key"

  /** Java's String.endsWith. */
  predicate EndsWith(s: string, suffix: string) {
    |suffix| <= |s| && s[|s| - |suffix|..] == suffix
  }

  /** The entry name under which a key pair stores one of its halves. */
  function EntryName(alias: string, suffix: string): (e: string)
    ensures EndsWith(e, suffix)
    ensures |e| == |alias| + |suffix| && e[..|alias|] == alias
  {
    alias + suffix
  }

  /** A Secret is usable as a cluster CA bundle when it has data and at least
      one entry whose name ends with ".crt". */
  predicate HasCrtEntry(secret: Secret) {
    match secret.data
    case None => false
    case Some(entries) => exists e :: e in entries && EndsWith(e, CrtSuffix)
  }

  /** A Secret holds the key pair `alias` when it has data with both the
      `alias.key` and the `alias.crt` entries. */
  predicate HasKeyPairEntries(secret: Secret, alias: string) {
    match secret.data
    case None => false
    case Some(entries) =>
      EntryName(alias, KeySuffix) in entries && EntryName(alias, CrtSuffix) in entries
  }

  /** The character Java's US-ASCII decoder substitutes for a byte above 0x7F. */
  const Replacement: char := '\U{FFFD}'

  predicate IsAscii(s: string) {
    forall i :: 0 <= i < |s| ==> s[i] < 0x80 as char
  }

  predicate AllAsciiBytes(bytes: seq<byte>) {
    forall i :: 0 <= i < |bytes| ==> bytes[i] < 0x80
  }

  function DecodeAsciiByte(b: byte): char {
    if b < 0x80 then (b as int) as char else Replacement
  }

  /** `new String(bytes, StandardCharsets.US_ASCII)`: one character per byte;
      bytes 0x00-0x7F keep their code, every other byte becomes U+FFFD. */
  function AsciiDecode(bytes: seq<byte>): (s: string)
    ensures |s| == |bytes|
    ensures forall i :: 0 <= i < |s| ==> s[i] < 0x80 as char || s[i] == Replacement
    ensures forall i :: 0 <= i < |bytes| ==> (s[i] == Replacement <==> bytes[i] >= 0x80)
    ensures forall i :: 0 <= i < |bytes| && bytes[i] < 0x80 ==> s[i] as int == bytes[i] as int
    ensures AllAsciiBytes(bytes) ==> IsAscii(s)
  {
    seq(|bytes|, i requires 0 <= i < |bytes| => DecodeAsciiByte(bytes[i]))
  }

  /** `String.getBytes(StandardCharsets.US_ASCII)` restricted to ASCII text:
      the reference encoder that AsciiDecode undoes. */
  function AsciiEncode(s: string): (bytes: seq<byte>)
    requires IsAscii(s)
    ensures |bytes| == |s| && AllAsciiBytes(bytes)
  {
    seq(|s|, i requires 0 <= i < |s| => (s[i] as int) as byte)
  }

  /** Decoding recovers any ASCII text from its encoding. */
  lemma AsciiDecodeEncode(s: string)
    requires IsAscii(s)
    ensures AsciiDecode(AsciiEncode(s)) == s
  {
    var d := AsciiDecode(AsciiEncode(s));
    forall i | 0 <= i < |s|
      ensures d[i] == s[i]
    {
      assert AsciiEncode(s)[i] as int == s[i] as int;
    }
  }

  /** Encoding recovers any all-ASCII byte string from its decoding, so the
      decoder loses nothing on ASCII input. */
  lemma AsciiEncodeDecode(bytes: seq<byte>)
    requires AllAsciiBytes(bytes)
    ensures AsciiEncode(AsciiDecode(bytes)) == bytes
  {
    var e := AsciiEncode(AsciiDecode(bytes));
    forall i | 0 <= i < |bytes|
      ensures e[i] == bytes[i]
    {
      assert AsciiDecode(bytes)[i] as int == bytes[i] as int;
    }
  }
}
