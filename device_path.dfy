/**
 * Device selection of the USB printer addon (`UsbDevice::GetDevicePath`):
 * the `VID_%04X` / `PID_%04X` patterns, the case-sensitive substring test
 * (`strstr` on a NUL-terminated buffer) and the first-match walk over the
 * enumerated printer interfaces.
 *
 * The SetupDi enumeration is an oracle: the caller passes the list of
 * per-interface lookup results in index order, or `None` when the
 * device-information set itself could not be obtained.
 */
module DevicePath {
  import opened Wrappers

  /** A Windows `WORD`: the type of the vendor and product ids. */
  type Word = x: int | 0 <= x < 0x1_0000

  /** Size of the `char vidPattern[10]` / `char pidPattern[10]` buffers. */
  const PatternBufferSize: nat := 10

  // ---------------------------------------------------------------------
  // Upper-case hexadecimal formatting ("%0<width>X")
  // ---------------------------------------------------------------------

  predicate IsUpperHexDigit(c: char) {
    '0' <= c <= '9' || 'A' <= c <= 'F'
  }

  predicate IsUpperHex(s: string) {
    forall i :: 0 <= i < |s| ==> IsUpperHexDigit(s[i])
  }

  /** The value of one upper-case hexadecimal digit. */
  function DigitValue(c: char): (d: nat)
    requires IsUpperHexDigit(c)
    ensures d < 16
  {
    if c <= '9' then c as int - '0' as int else c as int - 'A' as int + 10
  }

  /** The upper-case digit for a value below 16; `DigitValue` inverts it. */
  function HexDigit(d: nat): (c: char)
    requires d < 16
    ensures IsUpperHexDigit(c) && DigitValue(c) == d
  {
    if d < 10 then ('0' as int + d) as char else ('A' as int + d - 10) as char
  }

  function Pow16(n: nat): (p: nat)
    ensures p > 0
  {
    if n == 0 then 1 else 16 * Pow16(n - 1)
  }

  /**
   * `printf("%0<width>X", v)` for a value that fits in `width` digits:
   * exactly `width` upper-case digits, most significant first, zero-padded.
   */
  function HexPadded(v: nat, width: nat): (s: string)
    requires v < Pow16(width)
    ensures |s| == width && IsUpperHex(s)
  {
    if width == 0 then []
    else HexPadded(v / 16, width - 1) + [HexDigit(v % 16)]
  }

  /** Reads a string of upper-case hexadecimal digits as a number. */
  function ParseHex(s: string): (v: nat)
    requires IsUpperHex(s)
    ensures v < Pow16(|s|)
  {
    if s == [] then 0
    else
      var high := ParseHex(s[..|s| - 1]);
      assert high <= Pow16(|s| - 1) - 1;
      high * 16 + DigitValue(s[|s| - 1])
  }

  /** Formatting then parsing gives the value back. */
  lemma {:induction false} HexRoundTrip(v: nat, width: nat)
    requires v < Pow16(width)
    ensures ParseHex(HexPadded(v, width)) == v
  {
    if width > 0 {
      var s := HexPadded(v, width);
      assert s[..|s| - 1] == HexPadded(v / 16, width - 1);
      HexRoundTrip(v / 16, width - 1);
    }
  }

  lemma DigitRoundTrip(c: char)
    requires IsUpperHexDigit(c)
    ensures HexDigit(DigitValue(c)) == c
  {
  }

  lemma DivModSixteen(high: nat, digit: nat)
    requires digit < 16
    ensures (high * 16 + digit) / 16 == high && (high * 16 + digit) % 16 == digit
  {
  }

  /** Parsing then formatting gives the digits back: every width-digit string is some value's format. */
  lemma {:induction false} ParseRoundTrip(s: string)
    requires IsUpperHex(s)
    ensures HexPadded(ParseHex(s), |s|) == s
  {
    if s != [] {
      var prefix, last := s[..|s| - 1], s[|s| - 1];
      ParseRoundTrip(prefix);
      DivModSixteen(ParseHex(prefix), DigitValue(last));
      DigitRoundTrip(last);
      assert s == prefix + [last];
    }
  }

  // ---------------------------------------------------------------------
  // The VID_/PID_ patterns
  // ---------------------------------------------------------------------

  /** `sprintf_s(buf, "<prefix>%04X", id)`. */
  function IdPattern(prefix: string, id: Word): string {
    prefix + HexPadded(id, 4)
  }

  function VidPattern(vendorId: Word): string {
    IdPattern("VID_", vendorId)
  }

  function PidPattern(productId: Word): string {
    IdPattern("PID_", productId)
  }

  /**
   * A pattern is the prefix followed by exactly four upper-case hex digits
   * whose value is the id.
   */
  lemma PatternFormat(prefix: string, id: Word)
    ensures var p := IdPattern(prefix, id);
      && |p| == |prefix| + 4
      && p[..|prefix|] == prefix
      && IsUpperHex(p[|prefix|..])
      && ParseHex(p[|prefix|..]) == id
  {
    var p := IdPattern(prefix, id);
    assert p[|prefix|..] == HexPadded(id, 4);
    HexRoundTrip(id, 4);
  }

  /** Both patterns, with their NUL terminator, fit the 10-byte buffers. */
  lemma PatternsFitBuffers(vendorId: Word, productId: Word)
    ensures |VidPattern(vendorId)| == 8 && |VidPattern(vendorId)| + 1 <= PatternBufferSize
    ensures |PidPattern(productId)| == 8 && |PidPattern(productId)| + 1 <= PatternBufferSize
  {
  }

  /** Different ids give different patterns. */
  lemma PatternInjective(prefix: string, a: Word, b: Word)
    requires IdPattern(prefix, a) == IdPattern(prefix, b)
    ensures a == b
  {
    PatternFormat(prefix, a);
    PatternFormat(prefix, b);
  }

  // ---------------------------------------------------------------------
  // strstr over a NUL-terminated buffer
  // ---------------------------------------------------------------------

  /** The C string held by a buffer: its characters up to the first NUL. */
  function CString(buffer: string): (s: string)
    ensures |s| <= |buffer| && s == buffer[..|s|]
    ensures forall i :: 0 <= i < |s| ==> s[i] != '\0'
    ensures |s| < |buffer| ==> buffer[|s|] == '\0'
  {
    if buffer == [] || buffer[0] == '\0' then []
    else [buffer[0]] + CString(buffer[1..])
  }

  predicate OccursAt(haystack: string, needle: string, i: nat) {
    i + |needle| <= |haystack| && haystack[i..i + |needle|] == needle
  }

  /** `strstr(haystack, needle) != NULL`: a case-sensitive substring test. */
  function Contains(haystack: string, needle: string): (found: bool)
    ensures found <==> exists i: nat :: OccursAt(haystack, needle, i)
    decreases |haystack|
  {
    if |haystack| < |needle| then
      false
    else if haystack[..|needle|] == needle then
      assert OccursAt(haystack, needle, 0);
      true
    else
      var rest := haystack[1..];
      var found := Contains(rest, needle);
      assert found ==> exists i: nat :: OccursAt(haystack, needle, i) by {
        if found {
          var j: nat :| OccursAt(rest, needle, j);
          assert haystack[j + 1..j + 1 + |needle|] == rest[j..j + |needle|];
          assert OccursAt(haystack, needle, j + 1);
        }
      }
      assert (exists i: nat :: OccursAt(haystack, needle, i)) ==> found by {
        if i: nat :| OccursAt(haystack, needle, i) {
          assert i != 0;
          assert rest[i - 1..i - 1 + |needle|] == haystack[i..i + |needle|];
          assert OccursAt(rest, needle, i - 1);
        }
      }
      found
  }

  // ---------------------------------------------------------------------
  // First-match selection over the enumerated interfaces
  // ---------------------------------------------------------------------

  /**
   * What the enumeration yields for one printer interface: the detail
   * lookup failed, the hardware-id lookup failed, or both succeeded with
   * the device path and the raw hardware-id buffer.
   */
  datatype Lookup =
    | DetailFailed
    | HardwareIdFailed(devicePath: string)
    | Read(devicePath: string, hardwareId: string)

  /** (0, 0) matches any readable interface; no other pair is a wildcard. */
  predicate IsWildcard(vendorId: Word, productId: Word) {
    vendorId == 0 && productId == 0
  }

  /** An interface that `GetDevicePath` would return when it reaches it. */
  predicate Selected(vendorId: Word, productId: Word, entry: Lookup) {
    && entry.Read?
    && (|| IsWildcard(vendorId, productId)
        || (&& Contains(CString(entry.hardwareId), VidPattern(vendorId))
            && Contains(CString(entry.hardwareId), PidPattern(productId))))
  }

  /** The index of the first selected interface at or after `from`. */
  function FirstSelectedFrom(vendorId: Word, productId: Word, entries: seq<Lookup>, from: nat): (r: Option<nat>)
    requires from <= |entries|
    ensures r.Some? ==>
      && from <= r.value < |entries|
      && Selected(vendorId, productId, entries[r.value])
      && forall j :: from <= j < r.value ==> !Selected(vendorId, productId, entries[j])
    ensures r.None? ==> forall j :: from <= j < |entries| ==> !Selected(vendorId, productId, entries[j])
    decreases |entries| - from
  {
    if from == |entries| then None
    else if Selected(vendorId, productId, entries[from]) then Some(from)
    else FirstSelectedFrom(vendorId, productId, entries, from + 1)
  }

  function FirstSelected(vendorId: Word, productId: Word, entries: seq<Lookup>): Option<nat> {
    FirstSelectedFrom(vendorId, productId, entries, 0)
  }

  /** The path `GetDevicePath` returns: the first selected interface's, or "". */
  function SelectedPath(vendorId: Word, productId: Word, enumeration: Option<seq<Lookup>>): string {
    match enumeration
    case None => ""
    case Some(entries) =>
      match FirstSelected(vendorId, productId, entries)
      case None => ""
      case Some(i) => entries[i].devicePath
  }

  /**
   * `UsbDevice::GetDevicePath`: walks the interfaces in index order, skips
   * those whose lookups failed, and returns the first path whose hardware id
   * holds both patterns (any readable one for (0, 0)), or "".
   */
  method GetDevicePath(vendorId: Word, productId: Word, enumeration: Option<seq<Lookup>>) returns (path: string)
    ensures path == SelectedPath(vendorId, productId, enumeration)
  {
    if enumeration.None? {
      return "";
    }
    var entries := enumeration.value;
    for i := 0 to |entries|
      invariant FirstSelectedFrom(vendorId, productId, entries, i) == FirstSelected(vendorId, productId, entries)
    {
      var entry := entries[i];
      if entry.DetailFailed? {
        continue;
      }
      var devicePath := entry.devicePath;
      if entry.HardwareIdFailed? {
        continue;
      }
      if vendorId == 0 && productId == 0 {
        return devicePath;
      }
      var vidPattern := VidPattern(vendorId);
      var pidPattern := PidPattern(productId);
      var hardwareId := CString(entry.hardwareId);
      if Contains(hardwareId, vidPattern) && Contains(hardwareId, pidPattern) {
        return devicePath;
      }
    }
    return "";
  }

  // ---------------------------------------------------------------------
  // Properties of the selection
  // ---------------------------------------------------------------------

  /** An interface whose detail or hardware-id lookup failed is never chosen. */
  lemma FailedLookupsNeverSelected(vendorId: Word, productId: Word, entries: seq<Lookup>, i: nat)
    requires i < |entries| && !entries[i].Read?
    ensures FirstSelected(vendorId, productId, entries) != Some(i)
  {
  }

  /** For (0, 0) the choice is the first interface whose lookups both succeeded. */
  lemma WildcardSelectsFirstReadable(entries: seq<Lookup>, i: nat)
    ensures FirstSelected(0, 0, entries) == Some(i) <==>
      i < |entries| && entries[i].Read? && forall j :: 0 <= j < i ==> !entries[j].Read?
  {
  }

  /** A zero vendor id with a non-zero product id searches for `VID_0000`. */
  lemma ZeroVendorIsNotWildcard(productId: Word, devicePath: string, hardwareId: string)
    requires productId != 0
    ensures Selected(0, productId, Read(devicePath, hardwareId)) ==>
      Contains(CString(hardwareId), "VID_0000")
  {
    assert VidPattern(0) == "VID_0000";
  }

  /**
   * The walk stops at the first match: interfaces enumerated after it do
   * not change the choice.
   */
  lemma {:induction false} SelectionIgnoresLaterEntries(vendorId: Word, productId: Word, entries: seq<Lookup>, later: seq<Lookup>)
    requires FirstSelected(vendorId, productId, entries).Some?
    ensures FirstSelected(vendorId, productId, entries + later) == FirstSelected(vendorId, productId, entries)
  {
    var i := FirstSelected(vendorId, productId, entries).value;
    var all := entries + later;
    assert all[i] == entries[i];
    assert forall j :: 0 <= j < i ==> all[j] == entries[j];
  }
}
