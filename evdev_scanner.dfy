/**
 * The `CodeScanner` class of main.py, restricted to what it does with key
 * events and devices: the pending code `_code` that `loop` extends and clears,
 * and the name match by which `_connect_to_device` picks the scanner.
 * Each method is proved against the functions of module Accumulation.
 */
module EvdevScanner {
  import opened Wrappers
  import opened ScanCodes
  import opened Accumulation

  /** An enumerated input device: its name and its device node path (`fn`). */
  datatype InputDevice = InputDevice(name: string, fn: string)

  /**
   * The index of the device the enumeration loop of `_connect_to_device`
   * keeps: every device whose name equals the target overwrites the previous
   * choice, so the last match wins.
   */
  function LastMatch(devices: seq<InputDevice>, name: string): (r: Option<nat>)
    ensures r.Some? ==> r.value < |devices| && devices[r.value].name == name
    ensures r.Some? ==> forall j :: r.value < j < |devices| ==> devices[j].name != name
    ensures r.None? ==> forall j :: 0 <= j < |devices| ==> devices[j].name != name
    decreases |devices|
  {
    if devices == [] then None
    else if devices[|devices| - 1].name == name then Some(|devices| - 1)
    else LastMatch(devices[..|devices| - 1], name)
  }

  /** The result of one event: the completed code if any, or the scancode whose append raised. */
  datatype Outcome = Ok(emitted: Option<string>) | Err(scancode: int)

  class CodeScanner {
    /** `_code`: the pending code. */
    var code: string
    /** `_scan_device`: the name of the scanner device. */
    const scanDevice: string
    /** `_scanner`: the path of the opened device, if one was found. */
    var scanner: Option<string>

    /** The fields `__init__` sets before it connects (the connections are not modelled). */
    constructor (scanDevice: string)
      ensures code == "" && this.scanDevice == scanDevice && scanner == None
    {
      code := "";
      this.scanDevice := scanDevice;
      scanner := None;
    }

    /**
     * The body of the `for event in self._scanner.read_loop()` loop for one
     * event.  A completed code is returned rather than handed to a sending
     * thread; `Err` is the exception that the bare `except` catches.
     */
    method OnEvent(e: Event) returns (r: Outcome)
      modifies this`code
      ensures !IsPress(e) ==> r == Ok(None) && code == old(code)
      ensures IsTerminator(e) ==> r == Ok(Some(old(code))) && code == ""
      ensures IsKeyPress(e) && !IsFaulty(e) ==> r == Ok(None) && code == old(code) + Lookup(e.scancode).value
      ensures IsFaulty(e) ==> r == Err(e.scancode) && code == old(code)
      ensures Step(old(code), e) == if r.Err? then Unmapped(r.scancode) else Next(code, r.emitted)
    {
      if e.evType == EV_KEY {
        if e.keystate == KEY_DOWN && e.scancode != KEY_LEFTSHIFT {
          if e.scancode == KEY_ENTER {
            r := Ok(Some(code));
            code := "";
            return;
          } else {
            var name := Lookup(e.scancode);
            if name.None? {
              r := Err(e.scancode);
              return;
            }
            code := code + name.value;
          }
        }
      }
      r := Ok(None);
    }

    /**
     * The event loop of `loop` over the events of one read: the completed
     * codes in order, and the failing scancode when an append raised, after
     * which the remaining events are not processed.
     */
    method Loop(events: seq<Event>) returns (emitted: seq<string>, error: Option<int>)
      modifies this`code
      ensures ReadResult(code, emitted, error) == Run(old(code), events)
    {
      emitted, error := [], None;
      var i := 0;
      while i < |events|
        invariant 0 <= i <= |events|
        invariant Run(old(code), events) == Continue(ReadResult(code, emitted, None), Run(code, events[i..]))
      {
        ghost var before, rest := code, events[i..];
        assert rest[0] == events[i] && rest[1..] == events[i + 1..];
        var r := OnEvent(events[i]);
        match r
        case Err(sc) =>
          error := Some(sc);
          return;
        case Ok(em) =>
          AppendAssoc(emitted, OptionToSeq(em), Run(code, events[i + 1..]).emitted);
          emitted := emitted + OptionToSeq(em);
        i := i + 1;
      }
      assert events[i..] == [];
    }

    /**
     * The enumeration loop of `_connect_to_device` over one device list:
     * the scanner becomes the last device named `scanDevice`; when there is
     * none the previous scanner stays.  The pending code is not touched.
     */
    method ConnectToDevice(devices: seq<InputDevice>) returns (found: bool)
      modifies this`scanner
      ensures found <==> LastMatch(devices, scanDevice).Some?
      ensures found ==> scanner == Some(devices[LastMatch(devices, scanDevice).value].fn)
      ensures !found ==> scanner == old(scanner)
      ensures code == old(code)
    {
      found := false;
      var i := 0;
      while i < |devices|
        invariant 0 <= i <= |devices|
        invariant found <==> LastMatch(devices[..i], scanDevice).Some?
        invariant found ==> scanner == Some(devices[LastMatch(devices[..i], scanDevice).value].fn)
        invariant !found ==> scanner == old(scanner)
      {
        assert devices[..i + 1][..i] == devices[..i];
        if devices[i].name == scanDevice {
          scanner := Some(devices[i].fn);
          found := true;
        }
        i := i + 1;
      }
      assert devices[..i] == devices;
    }
  }

  /**
   * A read that ends after "Q" (the device went away), a reconnect, and a
   * second read "W", Enter: the code completed is "QW", because the pending
   * code survives the reconnect.
   */
  method ReconnectKeepsPendingCode(devices: seq<InputDevice>, target: string)
  {
    var s := new CodeScanner(target);
    var emitted, error := s.Loop([Press(16)]);
    assert [Press(16)][1..] == [];
    assert s.code == "Q" && emitted == [] && error == None;
    var found := s.ConnectToDevice(devices);
    assert s.code == "Q";
    emitted, error := s.Loop([Press(17), Press(KEY_ENTER)]);
    assert [Press(17), Press(KEY_ENTER)] == [Press(17)] + [Press(KEY_ENTER)] + [];
    assert [Press(17)][1..] == [];
    RunFirstCode("Q", [Press(17)], Press(KEY_ENTER), []);
    assert "Q" + Typed([Press(17)]) == "QW";
    assert emitted == ["QW"] && s.code == "";
  }
}
