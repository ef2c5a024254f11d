/** The required-tag verdict: tags travel in a proof as hexadecimal UTF-8 and lose nothing. */
module TagVerdict {
  import opened Wrappers
  import opened Ordering

  newtype Octet = x: int | 0 <= x < 256

  const DIGITS: string := "0123456789abcdef"

  /** The text encoding: `encode` refuses lone surrogates, `decode` undoes it, `blank` is `not strip()`. */
  datatype Encoding = Encoding(
    encode: string -> Option<seq<Octet>>, decode: seq<Octet> -> string, blank: string -> bool)

  ghost predicate Lossless(e: Encoding) {
    forall s :: e.encode(s).Some? ==> e.decode(e.encode(s).value) == s
  }

  function HexDigit(n: int): char
    requires 0 <= n < 16
  {
    DIGITS[n]
  }

  function DigitValue(c: char): (n: Option<int>)
    ensures n.Some? ==> 0 <= n.value < 16
  {
    if '0' <= c <= '9' then Some(c as int - '0' as int)
    else if 'a' <= c <= 'f' then Some(c as int - 'a' as int + 10)
    else None
  }

  /** `bytes.hex` */
  function Hex(bytes: seq<Octet>): string {
    if bytes == [] then ""
    else [HexDigit(bytes[0] as int / 16), HexDigit(bytes[0] as int % 16)] + Hex(bytes[1..])
  }

  /** `bytes.fromhex`, on the lower-case text `hex` writes. */
  function FromHex(text: string): Option<seq<Octet>> {
    if text == "" then Some([])
    else if |text| == 1 then None
    else
      var high, low, rest := DigitValue(text[0]), DigitValue(text[1]), FromHex(text[2..]);
      if high.None? || low.None? || rest.None? then None
      else Some([(high.value * 16 + low.value) as Octet] + rest.value)
  }

  lemma DigitRoundTrip(n: int)
    requires 0 <= n < 16
    ensures DigitValue(HexDigit(n)) == Some(n)
  {
    assert DIGITS[n] == if n < 10 then ('0' as int + n) as char else ('a' as int + n - 10) as char;
  }

  /** Hexadecimal text gives back the bytes it was written from. */
  lemma {:induction false} HexRoundTrip(bytes: seq<Octet>)
    ensures FromHex(Hex(bytes)) == Some(bytes)
  {
    if bytes != [] {
      HexRoundTrip(bytes[1..]);
      OctetRoundTrip(bytes[0], Hex(bytes[1..]));
      assert bytes == [bytes[0]] + bytes[1..];
    }
  }

  lemma OctetRoundTrip(b: Octet, rest: string)
    requires FromHex(rest).Some?
    ensures FromHex([HexDigit(b as int / 16), HexDigit(b as int % 16)] + rest) == Some([b] + FromHex(rest).value)
  {
    hide HexDigit, DigitValue;
    DigitRoundTrip(b as int / 16);
    DigitRoundTrip(b as int % 16);
    var text := [HexDigit(b as int / 16), HexDigit(b as int % 16)] + rest;
    assert text[2..] == rest;
  }

  // ----- Tags in a proof -----

  type Tags = map<string, string>

  datatype Entry = Entry(keyHex: string, valueHex: string)

  function EncodeEntry(e: Encoding, key: string, value: string): Option<Entry> {
    if e.encode(key).None? || e.encode(value).None? then None
    else Some(Entry(Hex(e.encode(key).value), Hex(e.encode(value).value)))
  }

  function EncodeAll(e: Encoding, tags: Tags, keys: seq<string>): Option<seq<Entry>>
    requires forall k :: k in keys ==> k in tags
  {
    if keys == [] then Some([])
    else
      var last := keys[|keys| - 1];
      var before := EncodeAll(e, tags, keys[..|keys| - 1]);
      var entry := EncodeEntry(e, last, tags[last]);
      if before.None? || entry.None? then None else Some(before.value + [entry.value])
  }

  lemma KeysListed(tags: Tags)
    ensures forall k :: k in SortedText(tags.Keys) <==> k in tags
  {
    SortedTextLists(tags.Keys);
  }

  /** The tags of a proof, by ascending key; None where a tag has no encoding. */
  function EncodeTags(e: Encoding, tags: Tags): Option<seq<Entry>> {
    KeysListed(tags);
    EncodeAll(e, tags, SortedText(tags.Keys))
  }

  /** The dictionary a consumer reads back; a later entry of one key wins. */
  function DecodeTags(e: Encoding, entries: seq<Entry>): Option<Tags> {
    if entries == [] then Some(map[])
    else
      var last := entries[|entries| - 1];
      var before, key, value := DecodeTags(e, entries[..|entries| - 1]), FromHex(last.keyHex), FromHex(last.valueHex);
      if before.None? || key.None? || value.None? then None
      else Some(before.value[e.decode(key.value) := e.decode(value.value)])
  }

  function Restrict(tags: Tags, keys: seq<string>): Tags {
    map k | k in tags && k in keys :: tags[k]
  }

  lemma {:induction false} DecodeEncodesAll(e: Encoding, tags: Tags, keys: seq<string>)
    requires Lossless(e) && forall k :: k in keys ==> k in tags
    requires EncodeAll(e, tags, keys).Some?
    ensures DecodeTags(e, EncodeAll(e, tags, keys).value) == Some(Restrict(tags, keys))
  {
    if keys == [] {
      assert Restrict(tags, keys) == map[];
    } else {
      var init, last := keys[..|keys| - 1], keys[|keys| - 1];
      assert keys == init + [last];
      DecodeEncodesAll(e, tags, init);
      HexRoundTrip(e.encode(last).value);
      HexRoundTrip(e.encode(tags[last]).value);
      var entries := EncodeAll(e, tags, keys).value;
      assert entries[..|entries| - 1] == EncodeAll(e, tags, init).value;
      assert Restrict(tags, keys) == Restrict(tags, init)[last := tags[last]];
    }
  }

  /** A consumer reads back exactly the tags the proof was made from. */
  lemma TagsRoundTrip(e: Encoding, tags: Tags)
    requires Lossless(e) && EncodeTags(e, tags).Some?
    ensures DecodeTags(e, EncodeTags(e, tags).value) == Some(tags)
  {
    KeysListed(tags);
    DecodeEncodesAll(e, tags, SortedText(tags.Keys));
    assert Restrict(tags, SortedText(tags.Keys)) == tags;
  }

  // ----- The verdict -----

  datatype Verdict = PASS | FAIL | NOT_APPLICABLE

  predicate Required(e: Encoding, tags: Tags, key: string) {
    !("aws:" <= key) && key in tags && !e.blank(tags[key])
  }

  /** The one evaluator both the engine and the persistence side use. */
  function Evaluate(e: Encoding, applicable: bool, entries: seq<Entry>, required: seq<string>): Option<Verdict> {
    if !applicable then Some(NOT_APPLICABLE)
    else
      var tags := DecodeTags(e, entries);
      if tags.None? then None
      else if forall key :: key in required ==> Required(e, tags.value, key) then Some(PASS)
      else Some(FAIL)
  }

  /** The verdict on a proof is the verdict on the tags it was made from. */
  lemma VerdictIsOnTheTags(e: Encoding, tags: Tags, required: seq<string>)
    requires Lossless(e) && EncodeTags(e, tags).Some?
    ensures Evaluate(e, true, EncodeTags(e, tags).value, required).Some?
    ensures Evaluate(e, true, EncodeTags(e, tags).value, required) == Some(PASS) <==>
              forall key :: key in required ==> !("aws:" <= key) && key in tags && !e.blank(tags[key])
  {
    TagsRoundTrip(e, tags);
  }
}
