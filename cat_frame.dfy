/**
 Inspection of one chunk received from the radio's CAT socket. Only the start
 of the chunk is looked at: a chunk whose first two bytes are `FA` is a
 frequency report, bytes 2 up to (not including) 13 are its decimal payload,
 and everything else passes through uninterpreted.
 */
module CatFrame {

  import opened Wrappers
  import opened Bytes

  const TagF: byte := 70        // ASCII 'F'
  const TagA: byte := 65        // ASCII 'A'
  const Semicolon: byte := 59   // ASCII ';'

  /** The chunk's payload is the slice [2:13]: at most this many bytes. */
  const PayloadWidth: nat := 11

  predicate HasReportTag(chunk: Chunk) {
    |chunk| >= 2 && chunk[0] == TagF && chunk[1] == TagA
  }

  /** The bytes after the tag, cut off at index 13 or at the end of the chunk. */
  function Payload(chunk: Chunk): (p: Chunk)
    requires |chunk| >= 2
    ensures |p| == if |chunk| < 2 + PayloadWidth then |chunk| - 2 else PayloadWidth
    ensures forall i :: 0 <= i < |p| ==> p[i] == chunk[2 + i]
  {
    chunk[2..if |chunk| < 2 + PayloadWidth then |chunk| else 2 + PayloadWidth]
  }

  /**
   What the radio link makes of a chunk: `Opaque` (no tag, forwarded as is),
   `Report` (a frequency in hertz) or `Malformed` (the payload does not parse,
   which raises in the relay).
   */
  datatype Inspection = Opaque | Report(frequency: nat) | Malformed

  function Inspect(chunk: Chunk): (r: Inspection)
    ensures r.Opaque? <==> !HasReportTag(chunk)
    ensures r.Malformed? <==> HasReportTag(chunk) && ParseDecimal(Payload(chunk)).None?
    ensures r.Report? ==> HasReportTag(chunk) && Some(r.frequency) == ParseDecimal(Payload(chunk))
    ensures r.Report? ==> r.frequency < Pow10(PayloadWidth)
  {
    if !HasReportTag(chunk) then Opaque
    else match ParseDecimal(Payload(chunk))
      case None => Malformed
      case Some(f) => Report(f)
  }

  /** The frame a radio sends to report `f` Hz: `FA`, eleven digits, `;`. */
  function FrequencyReport(f: nat): (frame: Chunk)
    ensures |frame| == 3 + PayloadWidth && HasReportTag(frame) && frame[|frame| - 1] == Semicolon
  {
    [TagF, TagA] + EncodeDigits(f, PayloadWidth) + [Semicolon]
  }

  /** A well-formed report is recognised with its value, whatever follows it in the chunk. */
  lemma ReportIsRecognised(f: nat, rest: Chunk)
    requires f < Pow10(PayloadWidth)
    ensures Inspect(FrequencyReport(f) + rest) == Report(f)
  {
    var chunk := FrequencyReport(f) + rest;
    assert Payload(chunk) == EncodeDigits(f, PayloadWidth);
    ParseEncoded(f, PayloadWidth);
  }

  /** A chunk holding only a tag and `k` digits, fewer than eleven, is accepted with that shorter value. */
  lemma ShortReportIsAccepted(v: nat, k: nat)
    requires 0 < k <= PayloadWidth && v < Pow10(k)
    ensures Inspect([TagF, TagA] + EncodeDigits(v, k)) == Report(v)
  {
    var digits := EncodeDigits(v, k);
    var chunk := [TagF, TagA] + digits;
    assert chunk[2..] == digits;
    assert Payload(chunk) == chunk[2..];
    ParseEncoded(v, k);
  }

  /** Only the first thirteen bytes of a tagged chunk matter. */
  lemma TailIsIgnored(chunk: Chunk, rest: Chunk)
    requires |chunk| >= 2 + PayloadWidth
    ensures Inspect(chunk + rest) == Inspect(chunk)
  {
    assert Payload(chunk + rest) == Payload(chunk);
  }

  /** A tag that does not start the chunk is not recognised, whatever byte comes before it. */
  lemma LateTagIsOpaque(lead: byte, rest: Chunk)
    ensures Inspect([lead, TagF, TagA] + rest) == Opaque
  {
  }

  /** `FA00014074000;` reports 14.074 MHz. */
  lemma ExampleReport()
    ensures Inspect([70, 65, 48, 48, 48, 49, 52, 48, 55, 52, 48, 48, 48, 59]) == Report(14074000)
  {
    var digits: seq<byte> := [48, 48, 48, 49, 52, 48, 55, 52, 48, 48, 48];
    var chunk: Chunk := [70, 65, 48, 48, 48, 49, 52, 48, 55, 52, 48, 48, 48, 59];
    assert chunk == [TagF, TagA] + digits + [Semicolon];
    assert Payload(chunk) == digits;
    assert digits[..8] == EncodeDigits(14074, 8);
    assert digits == EncodeDigits(14074000, PayloadWidth);
    ParseEncoded(14074000, PayloadWidth);
  }

  /** A nine-digit report `FA014074000;` pulls the `;` into the payload, which then fails to parse. */
  lemma NineDigitReportIsMalformed()
    ensures Inspect([70, 65, 48, 49, 52, 48, 55, 52, 48, 48, 48, 59]).Malformed?
  {
    var chunk: Chunk := [70, 65, 48, 49, 52, 48, 55, 52, 48, 48, 48, 59];
    assert Payload(chunk)[9] == Semicolon;
  }

  /** A bare tag leaves an empty payload, which fails to parse. */
  lemma BareTagIsMalformed()
    ensures Inspect([TagF, TagA]).Malformed?
  {
  }
}
