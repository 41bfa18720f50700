# HasiMQ code scanner: keystroke-to-code assembly

The repository connects a USB barcode scanner, which presents itself as a keyboard, to an MQTT broker. This model covers its core: turning the scanner's key events into completed code strings. The repository does this twice.

- **main.py** (evdev). `CodeScanner._scan_codes` maps Linux input-event scancodes to strings. The event loop of `CodeScanner.loop` ignores everything except key presses. It also ignores the left shift (42). Enter (28) completes the pending code `_code` and clears it. Any other press appends that key's table string. A press with no table entry makes the lookup raise; for scancode 0, whose entry is `None`, the `+=` raises. The bare `except` then abandons the rest of that read and reconnects the device. The pending code survives the reconnect, because `_connect_to_device` never touches `_code`. `_connect_to_device` keeps the last enumerated device whose name equals the configured name.
- **code_scanner.js** (node-hid). `fromHIDToChar` maps the key byte of a HID report to a character, using arithmetic on usage IDs of page 0x07 of the USB HID Usage Tables. The `data` handler of `readHID` drops `null`, publishes its `buffer` on a newline and clears it, and appends every other character. `connectHID` polls `hid.devices()` until the vendor/product filter keeps a device, then opens the first one it kept.

Modules:

- `ScanCodes` (scan_codes.dfy) holds the table.
- `Accumulation` (accumulation.dfy) holds the per-event step `Step`, the loop over one read `Run`, and the lemmas about both.
- `EvdevScanner` (evdev_scanner.dfy) holds the `CodeScanner` class. Its field `code` stands for `_code` and its field `scanner` stands for `_scanner`. Its methods `OnEvent`, `Loop` and `ConnectToDevice` are proved against `Step`, `Run` and `LastMatch`.
- `HidScanner` (hid_scanner.dfy) holds the JavaScript variant. The handler is a class `HidReader` whose field `buffer` stands for the closure variable. `Valid()` is its invariant: the buffer holds only characters that can appear in a code.
- `Wrappers` holds `Option`, which stands for Python's `None` and JavaScript's `null`.

The client method `EvdevScanner.ReconnectKeepsPendingCode` plays out one scenario. A read ends after "Q", the device reconnects, and a second read "W", Enter completes "QW".

Points of the code's behaviour that are easy to misread:

- The code never grabs the device; it only ungrabs the previous one.
- Besides key releases, the loop also ignores the auto-repeat keystate (2).
- Key 0 is present in the table with the value `None`; appending it raises `TypeError`, so pressing it ends the read just like an unmapped key.
- Several table entries are multi-character names (`ESC`, `BKSP`, `TAB`, `LCTRL`, `RSHFT`, `LALT`, `RALT`). So the pending code grows by the length of each name, not by one character per key press. `Lookup` states which scancodes have such names.
- The JavaScript handler has no error path. An `error` event calls `readHID` again, which starts a fresh buffer.

## Model

| member | source | states |
|---|---|---|
| ScanCodes.TableEntry | main.py:19-26 | the table's keys are exactly 0..54, 56 and 100 (55 and 57..99 are missing) |
| ScanCodes.Lookup | main.py:19-26 | a lookup yields a name exactly for 1..54, 56 and 100; key 0 (`None`) and missing keys yield none; every name is non-empty; the only multi-character names are those of scancodes 1, 14, 15, 28, 29, 42, 54, 56 and 100 |
| ScanCodes.ContiguousEntries | main.py:20-25 | among keys 0..54 only key 0 holds `None`; the others hold non-empty names, one character long except for the control keys |
| ScanCodes.LetterEntries | main.py:21-23 | 16, 17 and 30 map to "Q", "W" and "A" |
| ScanCodes.ControlEntries | main.py:22-25 | 28 is "CRLF", 42 is "LSHFT", 54 is "RSHFT", 56 is "LALT" |
| ScanCodes.MissingEntries | main.py:19-26 | 0, 55, 57, 99, 101 and -1 yield no name |
| Accumulation.Step | main.py:127-139 | an event fails exactly when it is a press of an unmapped scancode (reporting that scancode); Enter completes exactly the pending code and leaves it empty; a non-terminator completes nothing and extends the pending code by the pressed key's table string, or by nothing for non-key events, releases, holds and the left shift |
| Accumulation.Run | main.py:126-144 | one read completes at most one code per event |
| Accumulation.RunWithoutTerminator | main.py:126-139 | without Enter and without failing presses, a read completes no code and the pending code becomes the old one followed by the table strings of the presses, in order |
| Accumulation.RunFirstCode | main.py:131-137 | the first Enter completes the pending code followed by everything typed before it; the rest of the read continues from the empty code, so codes come out in the order of their terminators |
| Accumulation.RunStopsAtError | main.py:139-144 | a failing press ends the read: the pending code and completed codes are those before it, and later events are not processed |
| Accumulation.RunCountsCodes | main.py:126-137 | without failing presses a read does not fail and completes exactly one code per Enter press |
| Accumulation.RunFailsAtFaultyEvent | main.py:139-142 | a read fails exactly when it contains a failing press, and reports the scancode of such a press |
| Accumulation.RunConcat | main.py:140-144 | the pending code survives a reconnect: two reads in a row (with the first not failing) complete the same codes, in the same order, as one read of both |
| Accumulation.DoubleTerminator | main.py:131-137 | two Enter presses in a row complete the pending code and then the empty code |
| Accumulation.ScanQW | main.py:126-139 | Q, W, Enter (with releases between) completes "QW" and leaves the pending code empty |
| Accumulation.ScanShiftA | main.py:130-139 | left shift, A, Enter completes "A" |
| Accumulation.RightShiftAppends | main.py:130-139 | the right shift (54) is not ignored: it appends "RSHFT" |
| EvdevScanner.LastMatch | main.py:80-83 | the selected index holds a device with the target name and no later device has that name; no index exactly when no device has that name |
| EvdevScanner.CodeScanner.constructor | main.py:30-36 | a new scanner has the empty pending code, the given device name and no device |
| EvdevScanner.CodeScanner.OnEvent | main.py:127-139 | ignored events change nothing and emit nothing; Enter returns the old pending code and clears it; a mapped press appends its table string; a failing press returns the scancode and leaves the pending code unchanged; the outcome agrees with `Step` |
| EvdevScanner.CodeScanner.Loop | main.py:125-144 | the new pending code, the codes returned and the error are those of `Run` on the old pending code and the events |
| EvdevScanner.CodeScanner.ConnectToDevice | main.py:75-96 | found exactly when some device has the target name; then the scanner is the path of the last such device, otherwise the previous scanner stays; the pending code is unchanged |
| HidScanner.FromHidToChar | code_scanner.js:15-25 | a newline exactly for 0x28; `null` exactly below 0x03; a digit for every value from 0x1D up except 0x28; a character in '`'..'y' for 0x03..0x1C |
| HidScanner.DigitBranchPeriodic | code_scanner.js:18-19 | every usage ID from 0x1D up other than Return gives the digit (data - 0x1D) mod 10, the same as the value in 0x1D..0x26 congruent to it modulo 10: e.g. Escape (0x29) gives '2' and '-' (0x2D) gives '6' |
| HidScanner.DigitKeys | code_scanner.js:18-19 | usage IDs 0x1E..0x27 give "1234567890" in order |
| HidScanner.LetterKeys | code_scanner.js:20-21 | usage IDs 0x04..0x1C give "a".."y" in order |
| HidScanner.DigitBranchQuirk | code_scanner.js:18-21 | key z (0x1D) gives '0', the same as key 0 (0x27); Space (0x2C) gives '5'; 0x03 gives '`' |
| HidScanner.Distinct | code_scanner.js:18-21 | distinct usage IDs 0x03..0x27 give distinct characters, except for z and 0 |
| HidScanner.HidReader.constructor | code_scanner.js:58 | the buffer starts empty |
| HidScanner.HidReader.OnData | code_scanner.js:60-73 | a `null` character (also from a report shorter than three bytes) changes nothing and publishes nothing; a newline publishes exactly the old buffer and clears it; any other character is appended and the length grows by one; the buffer and every published code hold only code characters, never a newline |
| HidScanner.Scanners | code_scanner.js:47-49 | the filter keeps exactly the devices with the given vendor and product IDs, and no more entries than it was given |
| HidScanner.FirstScanner | code_scanner.js:47-54 | the first kept device is the first matching device in enumeration order |
| HidScanner.ConnectHid | code_scanner.js:41-55 | a path is returned exactly when some poll finds a scanner; it is the path of the first kept device of the first poll that finds one |

## Left out

- MQTT: connecting, reconnecting, the disconnect callback, publishing (including the liveness message on `hasi/null`) and the JavaScript client's error handler. These are network I/O through client libraries that are not part of this model. A completed code is returned instead of published.
- The sending thread and its `copy.deepcopy`. Concurrency is not modelled. The completed code is returned as an immutable value.
- The broker service tick at the start of `loop` (main.py:120-123).
- evdev and node-hid I/O: `list_devices`, opening `InputDevice`, `read_loop`, `categorize`, `ungrab`, `new hid.HID`, and registering the `data` and `error` handlers. Device lists and events are plain input sequences. The end of an event sequence stands for the read ending, whether by a read error or by the stream closing.
- EvdevScanner.CodeScanner.ConnectToDevice: a single enumeration that reports not-found. In the source, not finding the device, or an exception during enumeration, sleeps and calls `_connect_to_device` again, forever.
- HidScanner.ConnectHid: finitely many polls, returning `None` when none finds a scanner. The source polls forever, and it sleeps one second per poll.
- The JavaScript `error` handler, which reconnects and registers a fresh handler with an empty buffer (code_scanner.js:75-79).
- Sleeps, `print` and `console.log` diagnostics, and the `__main__` and top-level drivers.
- HidScanner.FromHidToChar: the parameter is an integer. Non-integer JavaScript numbers are not modelled; a report byte is always an integer.
- The vendor and product IDs 0x05e0 and 0x0200 (code_scanner.js:10-11) are not constants of the model: `HidScanner.ConnectHid` takes them as parameters, as `connectHID` does.
