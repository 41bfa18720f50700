/**
 * code_scanner.js: the node-hid variant of the scanner.  `fromHIDToChar`
 * turns the key byte of a HID keyboard report (a usage ID of the
 * Keyboard/Keypad page 0x07 of the USB HID Usage Tables) into a character;
 * the `data` handler of `readHID` assembles the characters into a code that is
 * published on a newline; `connectHID` picks the first device with the
 * scanner's vendor and product IDs.
 */
module HidScanner {
  import opened Wrappers

  newtype byte = b: int | 0 <= b < 256

  /** Usage ID 0x28, Keyboard Return. */
  const HID_RETURN: int := 0x28

  /** A character `fromHIDToChar` can produce other than the newline. */
  predicate IsCodeChar(c: char) {
    '0' <= c <= '9' || '`' <= c <= 'y'
  }

  /**
   * `fromHIDToChar(data)`: Return gives a newline; every value from 0x1D up
   * gives the digit (data - 0x1D) mod 10; 0x03 to 0x1C give the characters
   * 0x60 to 0x79; below 0x03 the result is `null`.
   */
  function FromHidToChar(data: int): (r: Option<char>)
    ensures r == Some('\n') <==> data == HID_RETURN
    ensures r.None? <==> data < 0x03
    ensures data >= 0x1D && data != HID_RETURN ==> r.Some? && '0' <= r.value <= '9'
    ensures 0x03 <= data < 0x1D ==> r.Some? && '`' <= r.value <= 'y'
    ensures r.Some? && r.value != '\n' ==> IsCodeChar(r.value)
  {
    if data == HID_RETURN then Some('\n')
    else if data >= 0x1D then Some(((data - 0x1D) % 10 + 0x30) as char)
    else if data >= 0x03 then Some((data + 0x5D) as char)
    else None
  }

  /** The usage IDs 0x1E to 0x27 (keys 1 to 9 and 0) give the digits 1 to 9 and 0. */
  lemma DigitKeys(data: int)
    requires 0x1E <= data <= 0x27
    ensures FromHidToChar(data) == Some("1234567890"[data - 0x1E])
  {
    var k := data - 0x1E;
    if k < 9 {
      assert (data - 0x1D) % 10 == k + 1;
    } else {
      assert (data - 0x1D) % 10 == 0;
    }
  }

  /** The usage IDs 0x04 to 0x1C (keys a to y) give the lower-case letters a to y. */
  lemma LetterKeys(data: int)
    requires 0x04 <= data <= 0x1C
    ensures FromHidToChar(data) == Some("abcdefghijklmnopqrstuvwxy"[data - 0x04])
  {
    if data < 0x10 {
      assert "abcdefghijklmnopqrstuvwxy"[data - 0x04] == "abcdefghijkl"[data - 0x04];
    } else {
      assert "abcdefghijklmnopqrstuvwxy"[data - 0x04] == "mnopqrstuvwxy"[data - 0x10];
    }
  }

  /**
   * The digit branch starts one usage ID early and has no upper bound: key z
   * (0x1D) gives '0' like key 0 (0x27), and Space (0x2C) gives '5'.
   */
  lemma DigitBranchQuirk()
    ensures FromHidToChar(0x1D) == FromHidToChar(0x27) == Some('0')
    ensures FromHidToChar(0x2C) == Some('5')
    ensures FromHidToChar(0x03) == Some('`')
  {
  }

  /**
   * The digit branch repeats every ten usage IDs: every value from 0x1D up
   * other than Return gives the same digit as the value in 0x1D..0x26 it is
   * congruent to modulo 10, namely the digit (data - 0x1D) mod 10.
   */
  lemma DigitBranchPeriodic(data: int)
    requires data >= 0x1D && data != HID_RETURN
    ensures FromHidToChar(data) == FromHidToChar(0x1D + (data - 0x1D) % 10)
    ensures FromHidToChar(data) == Some("0123456789"[(data - 0x1D) % 10])
  {
  }

  /** Distinct usage IDs from 0x03 to 0x27 give distinct characters, except z (0x1D) and 0 (0x27). */
  lemma Distinct(d1: int, d2: int)
    requires 0x03 <= d1 < d2 <= 0x27 && !(d1 == 0x1D && d2 == 0x27)
    ensures FromHidToChar(d1) != FromHidToChar(d2)
  {
  }

  /** The character of an input report: `data[2]` is `undefined` in a report shorter than three bytes, and `fromHIDToChar(undefined)` is `null`. */
  function ReportChar(data: seq<byte>): Option<char> {
    if |data| > 2 then FromHidToChar(data[2] as int) else None
  }

  /** The `data` handler of `readHID` with its closure variable `buffer`. */
  class HidReader {
    var buffer: string

    /** The buffer holds only characters of codes: never a newline. */
    ghost predicate Valid()
      reads this
    {
      forall i :: 0 <= i < |buffer| ==> IsCodeChar(buffer[i])
    }

    /** `var buffer = ''` at the start of `readHID`. */
    constructor ()
      ensures Valid() && buffer == ""
    {
      buffer := "";
    }

    /**
     * One `data` event: a `null` character is dropped, a newline publishes
     * the buffer and then clears it, any other character is appended.
     * The published code is returned instead of handed to the MQTT client.
     */
    method OnData(data: seq<byte>) returns (published: Option<string>)
      requires Valid()
      modifies this
      ensures Valid()
      ensures ReportChar(data).None? ==> published == None && buffer == old(buffer)
      ensures ReportChar(data) == Some('\n') ==> published == Some(old(buffer)) && buffer == ""
      ensures ReportChar(data).Some? && ReportChar(data).value != '\n' ==>
        published == None && buffer == old(buffer) + [ReportChar(data).value] && |buffer| == |old(buffer)| + 1
      ensures published.Some? ==> forall i :: 0 <= i < |published.value| ==> IsCodeChar(published.value[i])
    {
      var character := ReportChar(data);
      published := None;
      if character.Some? {
        if character.value != '\n' {
          buffer := buffer + [character.value];
        } else {
          published := Some(buffer);
          buffer := "";
        }
      }
    }
  }

  /** A device record of `hid.devices()`. */
  datatype HidDeviceInfo = HidDeviceInfo(vendorId: int, productId: int, path: string)

  predicate IsScanner(d: HidDeviceInfo, vendorId: int, productId: int) {
    d.vendorId == vendorId && d.productId == productId
  }

  /** `devices.filter(...)`: the devices with the given vendor and product IDs, in enumeration order. */
  function Scanners(devices: seq<HidDeviceInfo>, vendorId: int, productId: int): (r: seq<HidDeviceInfo>)
    ensures |r| <= |devices|
    ensures forall d :: d in r <==> d in devices && IsScanner(d, vendorId, productId)
    decreases |devices|
  {
    if devices == [] then []
    else
      var rest := Scanners(devices[1..], vendorId, productId);
      assert forall d :: d in devices <==> d == devices[0] || d in devices[1..];
      if IsScanner(devices[0], vendorId, productId) then [devices[0]] + rest else rest
  }

  /** The first kept device is the first matching device of the enumeration. */
  lemma {:induction false} FirstScanner(devices: seq<HidDeviceInfo>, vendorId: int, productId: int, k: nat)
    requires k < |devices| && IsScanner(devices[k], vendorId, productId)
    requires forall j :: 0 <= j < k ==> !IsScanner(devices[j], vendorId, productId)
    ensures Scanners(devices, vendorId, productId) != []
    ensures Scanners(devices, vendorId, productId)[0] == devices[k]
    decreases k
  {
    if k > 0 {
      assert forall j :: 0 <= j < k - 1 ==> devices[1..][j] == devices[j + 1];
      FirstScanner(devices[1..], vendorId, productId, k - 1);
    }
  }

  /**
   * The `while (scanners.length == 0)` loop of `connectHID`, over the results
   * `polls` of successive `hid.devices()` calls: the path of the first kept
   * device of the first poll that finds one, or `None` when no poll does.
   */
  method ConnectHid(polls: seq<seq<HidDeviceInfo>>, vendorId: int, productId: int) returns (path: Option<string>)
    ensures path.None? <==> forall i :: 0 <= i < |polls| ==> Scanners(polls[i], vendorId, productId) == []
    ensures path.Some? ==>
      exists i :: (0 <= i < |polls| && Scanners(polls[i], vendorId, productId) != [] &&
        path.value == Scanners(polls[i], vendorId, productId)[0].path &&
        forall j :: 0 <= j < i ==> Scanners(polls[j], vendorId, productId) == [])
  {
    var scanners: seq<HidDeviceInfo> := [];
    var n := 0;
    while |scanners| == 0 && n < |polls|
      invariant 0 <= n <= |polls|
      invariant scanners == [] ==> forall j :: 0 <= j < n ==> Scanners(polls[j], vendorId, productId) == []
      invariant scanners != [] ==>
        (0 < n && scanners == Scanners(polls[n - 1], vendorId, productId) &&
         forall j :: 0 <= j < n - 1 ==> Scanners(polls[j], vendorId, productId) == [])
    {
      var devices := polls[n];
      scanners := Scanners(devices, vendorId, productId);
      n := n + 1;
    }
    if scanners == [] {
      path := None;
    } else {
      path := Some(scanners[0].path);
    }
  }
}
