/**
 * The per-event body of `CodeScanner.loop` in main.py, as pure functions.
 * `Step` is one iteration of the `for event in read_loop()` loop; `Run` is the
 * whole loop over the events of one read, stopping at the first press whose
 * append raises (the bare `except` abandons the rest of that read).
 */
module Accumulation {
  import opened Wrappers
  import opened ScanCodes

  /** `ecodes.EV_KEY` of the Linux input subsystem. */
  const EV_KEY: int := 1
  /** `KeyEvent.key_down`: the keystate of a press (0 is release, 2 is hold). */
  const KEY_DOWN: int := 1

  /** An evdev event after `categorize`: its type, its scancode (code) and its keystate (value). */
  datatype Event = Event(evType: int, scancode: int, keystate: int)

  /** An event the loop acts on: a key press other than the left shift. */
  predicate IsPress(e: Event) {
    e.evType == EV_KEY && e.keystate == KEY_DOWN && e.scancode != KEY_LEFTSHIFT
  }

  /** A press of the Enter key, which completes a code. */
  predicate IsTerminator(e: Event) {
    IsPress(e) && e.scancode == KEY_ENTER
  }

  /** A press whose table string is appended to the code. */
  predicate IsKeyPress(e: Event) {
    IsPress(e) && e.scancode != KEY_ENTER
  }

  /**
   * A press whose append raises: the lookup raises `KeyError` for a missing
   * key, and for key 0 the lookup yields `None`, so that `+=` raises `TypeError`.
   */
  predicate IsFaulty(e: Event) {
    IsKeyPress(e) && Lookup(e.scancode).None?
  }

  /** No event of `es` makes the append raise. */
  predicate Clean(es: seq<Event>) {
    es == [] || (!IsFaulty(es[0]) && Clean(es[1..]))
  }

  /** No event of `es` completes a code. */
  predicate NoTerminator(es: seq<Event>) {
    es == [] || (!IsTerminator(es[0]) && NoTerminator(es[1..]))
  }

  /** The string an event contributes to the pending code (empty unless it is a mapped key press). */
  function Contribution(e: Event): string {
    if IsKeyPress(e) && Lookup(e.scancode).Some? then Lookup(e.scancode).value else ""
  }

  /** The concatenation of the contributions of `es`, in order. */
  function Typed(es: seq<Event>): string {
    if es == [] then "" else Contribution(es[0]) + Typed(es[1..])
  }

  /** The number of terminator events in `es`. */
  function Terminators(es: seq<Event>): nat {
    if es == [] then 0 else (if IsTerminator(es[0]) then 1 else 0) + Terminators(es[1..])
  }

  /** The outcome of one event: the new pending code and the code it completes, or the failing scancode. */
  datatype StepResult = Next(buffer: string, emitted: Option<string>) | Unmapped(scancode: int)

  /** One iteration of the event loop on the pending code `code`. */
  function Step(code: string, e: Event): (r: StepResult)
    ensures r.Unmapped? <==> IsFaulty(e)
    ensures r.Unmapped? ==> r.scancode == e.scancode
    ensures IsTerminator(e) ==> r == Next("", Some(code))
    ensures !IsTerminator(e) && r.Next? ==> r.emitted == None && r.buffer == code + Contribution(e)
  {
    if e.evType != EV_KEY then Next(code, None)
    else if !(e.keystate == KEY_DOWN && e.scancode != KEY_LEFTSHIFT) then Next(code, None)
    else if e.scancode == KEY_ENTER then Next("", Some(code))
    else
      match Lookup(e.scancode)
      case None => Unmapped(e.scancode)
      case Some(name) => Next(code + name, None)
  }

  /** What one read of the event stream leaves: the pending code, the completed codes in order, the failing scancode if any. */
  datatype ReadResult = ReadResult(buffer: string, emitted: seq<string>, error: Option<int>)

  /** `r` with the code `em` (if any) completed before the codes of `r`. */
  function Prepend(em: Option<string>, r: ReadResult): ReadResult {
    r.(emitted := OptionToSeq(em) + r.emitted)
  }

  /** The codes of `r1` followed by those of `r2`, which continues from `r1`'s pending code. */
  function Continue(r1: ReadResult, r2: ReadResult): ReadResult {
    r2.(emitted := r1.emitted + r2.emitted)
  }

  /** The event loop over the events `es` of one read, starting from the pending code `code`. */
  function Run(code: string, es: seq<Event>): (r: ReadResult)
    ensures |r.emitted| <= |es|
    decreases |es|
  {
    if es == [] then ReadResult(code, [], None)
    else
      match Step(code, es[0])
      case Unmapped(sc) => ReadResult(code, [], Some(sc))
      case Next(b, em) =>
        Prepend(em, Run(b, es[1..]))
  }

  /** The head and the tail of a sequence built from its first element. */
  lemma SliceAfterFirst(x: Event, es: seq<Event>)
    ensures ([x] + es)[0] == x && ([x] + es)[1..] == es
  {
  }

  /** Concatenation of sequences is associative. */
  lemma AppendAssoc<T>(a: seq<T>, b: seq<T>, c: seq<T>)
    ensures (a + b) + c == a + (b + c)
  {
  }

  /** An event that neither fails nor completes a code only extends the pending code. */
  lemma RunOverKey(code: string, es: seq<Event>)
    requires es != [] && !IsFaulty(es[0]) && !IsTerminator(es[0])
    ensures Run(code, es) == Run(code + Contribution(es[0]), es[1..])
  {
    var r := Run(code + Contribution(es[0]), es[1..]);
    assert Run(code, es) == Prepend(None, r);
    assert OptionToSeq<string>(None) + r.emitted == r.emitted;
  }

  /** The first event and the rest of `pre + [x] + rest`. */
  lemma SplitFirst(pre: seq<Event>, x: Event, rest: seq<Event>)
    requires pre != []
    ensures (pre + [x] + rest)[0] == pre[0] && (pre + [x] + rest)[1..] == pre[1..] + [x] + rest
  {
  }

  /**
   * Without terminators and lookup failures the read completes no code, and
   * the pending code grows by exactly the table strings of the key presses.
   */
  lemma {:induction false} RunWithoutTerminator(code: string, es: seq<Event>)
    requires Clean(es) && NoTerminator(es)
    ensures Run(code, es) == ReadResult(code + Typed(es), [], None)
    decreases |es|
  {
    if es == [] {
      assert code + Typed(es) == code;
    } else {
      var c := Contribution(es[0]);
      RunOverKey(code, es);
      RunWithoutTerminator(code + c, es[1..]);
      AppendAssoc(code, c, Typed(es[1..]));
    }
  }

  /**
   * The first terminator completes exactly the pending code followed by the
   * strings typed before it; the rest of the read then starts from the empty code.
   */
  lemma {:induction false} RunFirstCode(code: string, pre: seq<Event>, t: Event, rest: seq<Event>)
    requires Clean(pre) && NoTerminator(pre) && IsTerminator(t)
    ensures Run(code, pre + [t] + rest) == Prepend(Some(code + Typed(pre)), Run("", rest))
    decreases |pre|
  {
    if pre == [] {
      assert pre + [t] + rest == [t] + rest;
      SliceAfterFirst(t, rest);
      assert code + Typed(pre) == code;
    } else {
      SplitFirst(pre, t, rest);
      var c := Contribution(pre[0]);
      RunOverKey(code, pre + [t] + rest);
      RunFirstCode(code + c, pre[1..], t, rest);
      AppendAssoc(code, c, Typed(pre[1..]));
    }
  }

  /**
   * A lookup failure ends the read: the pending code is the one before the
   * failing press, and the events after it are never looked at.
   */
  lemma {:induction false} RunStopsAtError(code: string, pre: seq<Event>, bad: Event, rest: seq<Event>)
    requires Clean(pre) && IsFaulty(bad)
    ensures Run(code, pre + [bad] + rest) == Run(code, pre).(error := Some(bad.scancode))
    decreases |pre|
  {
    if pre == [] {
      assert pre + [bad] + rest == [bad] + rest;
      SliceAfterFirst(bad, rest);
    } else {
      SplitFirst(pre, bad, rest);
      RunStopsAtError(Step(code, pre[0]).buffer, pre[1..], bad, rest);
    }
  }

  /** Without lookup failures a read completes one code per terminator event. */
  lemma {:induction false} RunCountsCodes(code: string, es: seq<Event>)
    requires Clean(es)
    ensures Run(code, es).error == None
    ensures |Run(code, es).emitted| == Terminators(es)
    decreases |es|
  {
    if es != [] {
      RunCountsCodes(Step(code, es[0]).buffer, es[1..]);
    }
  }

  /** A read fails exactly when one of its events is an unmapped press, and it reports that press's scancode. */
  lemma {:induction false} RunFailsAtFaultyEvent(code: string, es: seq<Event>)
    ensures Run(code, es).error.Some? <==> !Clean(es)
    ensures Run(code, es).error.Some? ==>
      exists i :: 0 <= i < |es| && IsFaulty(es[i]) && es[i].scancode == Run(code, es).error.value
    decreases |es|
  {
    if es != [] {
      assert forall i :: 0 < i < |es| ==> es[i] == es[1..][i - 1];
      match Step(code, es[0])
      case Unmapped(sc) =>
        assert IsFaulty(es[0]);
      case Next(b, em) =>
        RunFailsAtFaultyEvent(b, es[1..]);
        if Run(code, es).error.Some? {
          var j :| 0 <= j < |es[1..]| && IsFaulty(es[1..][j]) && es[1..][j].scancode == Run(b, es[1..]).error.value;
          assert es[j + 1] == es[1..][j];
        }
    }
  }

  /**
   * Reads compose: when the first read ends without a lookup failure, a stream
   * split into two reads (a device reconnect in between, which keeps the
   * pending code) completes the same codes, in the same order, as one read.
   */
  lemma {:induction false} RunConcat(code: string, xs: seq<Event>, ys: seq<Event>)
    requires Run(code, xs).error == None
    ensures Run(code, xs + ys) == Continue(Run(code, xs), Run(Run(code, xs).buffer, ys))
    decreases |xs|
  {
    if xs == [] {
      assert xs + ys == ys;
    } else {
      var e := xs[0];
      assert (xs + ys)[0] == e && (xs + ys)[1..] == xs[1..] + ys;
      var s := Step(code, e);
      assert s.Next?;
      var r1 := Run(s.buffer, xs[1..]);
      assert Run(code, xs) == Prepend(s.emitted, r1);
      RunConcat(s.buffer, xs[1..], ys);
      AppendAssoc(OptionToSeq(s.emitted), r1.emitted, Run(r1.buffer, ys).emitted);
    }
  }

  /** Two terminators in a row: the second completes the empty code. */
  lemma DoubleTerminator(code: string, t1: Event, t2: Event)
    requires IsTerminator(t1) && IsTerminator(t2)
    ensures Run(code, [t1, t2]) == ReadResult("", [code, ""], None)
  {
    assert [t1, t2][0] == t1 && [t1, t2][1..] == [t2];
    assert [t2][0] == t2 && [t2][1..] == [];
    assert Run("", [t2]) == Prepend(Some(""), Run("", []));
    assert Run(code, [t1, t2]) == Prepend(Some(code), Run("", [t2]));
  }

  function Press(sc: int): Event { Event(EV_KEY, sc, KEY_DOWN) }
  function Release(sc: int): Event { Event(EV_KEY, sc, 0) }

  /** Q, W, Enter completes "QW" and leaves the pending code empty; releases change nothing. */
  lemma ScanQW()
    ensures Run("", [Press(16), Release(16), Press(17), Release(17), Press(KEY_ENTER)])
         == ReadResult("", ["QW"], None)
  {
    var es := [Press(16), Release(16), Press(17), Release(17), Press(KEY_ENTER)];
    LetterEntries();
    assert Contribution(Press(16)) == "Q" && Contribution(Press(17)) == "W";
    assert Contribution(Release(16)) == "" && Contribution(Release(17)) == "";
    assert "" + "Q" == "Q" && "Q" + "" == "Q" && "Q" + "W" == "QW" && "QW" + "" == "QW";
    RunOverKey("", es);
    assert es[1..] == [Release(16), Press(17), Release(17), Press(KEY_ENTER)];
    RunOverKey("Q", es[1..]);
    assert es[1..][1..] == [Press(17), Release(17), Press(KEY_ENTER)];
    RunOverKey("Q", es[1..][1..]);
    assert es[1..][1..][1..] == [Release(17), Press(KEY_ENTER)];
    RunOverKey("QW", es[1..][1..][1..]);
    assert es[1..][1..][1..][1..] == [Press(KEY_ENTER)];
    assert Run("QW", [Press(KEY_ENTER)]) == Prepend(Some("QW"), Run("", []));
    assert OptionToSeq(Some("QW")) + [] == ["QW"];
  }

  /** Left shift, A, Enter completes "A": the left shift press is ignored. */
  lemma ScanShiftA()
    ensures Run("", [Press(KEY_LEFTSHIFT), Press(30), Press(KEY_ENTER)]) == ReadResult("", ["A"], None)
  {
    var es := [Press(KEY_LEFTSHIFT), Press(30), Press(KEY_ENTER)];
    var pre := [Press(KEY_LEFTSHIFT), Press(30)];
    assert es == pre + [Press(KEY_ENTER)] + [];
    assert pre[1..] == [Press(30)];
    assert pre[1..][1..] == [];
    assert Typed(pre[1..]) == "A";
    assert Typed(pre) == "A";
    RunFirstCode("", pre, Press(KEY_ENTER), []);
  }

  /** The right shift is not ignored: it appends its table string. */
  lemma RightShiftAppends(code: string)
    ensures Step(code, Press(KEY_RIGHTSHIFT)) == Next(code + "RSHFT", None)
  {
  }
}
