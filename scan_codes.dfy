/**
 * The static table `CodeScanner._scan_codes` of main.py: Linux input-event key
 * codes to the strings the scanner appends to a code.  Key 0 is present and
 * holds Python's `None`; every scancode outside the table has no key at all.
 */
module ScanCodes {
  import opened Wrappers

  const KEY_ENTER: int := 28
  const KEY_LEFTSHIFT: int := 42
  const KEY_RIGHTSHIFT: int := 54

  /**
   * The values of the contiguous keys 0 to 54 of `_scan_codes`, ten keys per
   * row: row r holds the keys 10 * r to 10 * r + 9 (the last row stops at 54).
   */
  function TableRows(): (rows: seq<seq<Option<string>>>)
    ensures |rows| == 6
    ensures forall r :: 0 <= r < 5 ==> |rows[r]| == 10
    ensures |rows[5]| == 5
  {
    [
      [None, Some("ESC"), Some("1"), Some("2"), Some("3"), Some("4"), Some("5"), Some("6"), Some("7"), Some("8")],
      [Some("9"), Some("0"), Some("-"), Some("="), Some("BKSP"), Some("TAB"), Some("Q"), Some("W"), Some("E"), Some("R")],
      [Some("T"), Some("Y"), Some("U"), Some("I"), Some("O"), Some("P"), Some("["), Some("]"), Some("CRLF"), Some("LCTRL")],
      [Some("A"), Some("S"), Some("D"), Some("F"), Some("G"), Some("H"), Some("J"), Some("K"), Some("L"), Some(";")],
      [Some("\""), Some("`"), Some("LSHFT"), Some("\\"), Some("Z"), Some("X"), Some("C"), Some("V"), Some("B"), Some("N")],
      [Some("M"), Some(","), Some("."), Some("/"), Some("RSHFT")]
    ]
  }

  /**
   * The dictionary entry for `sc`: `None` when `sc` is not a key,
   * `Some(None)` for the key 0 whose value is `None`, `Some(Some(name))` otherwise.
   * The keys are 0 to 54 and, past the gap at 55, 56 and 100.
   */
  function TableEntry(sc: int): (r: Option<Option<string>>)
    ensures r.Some? <==> (0 <= sc <= 54 || sc == 56 || sc == 100)
  {
    if 0 <= sc <= 54 then Some(TableRows()[sc / 10][sc % 10])
    else if sc == 56 then Some(Some("LALT"))
    else if sc == 100 then Some(Some("RALT"))
    else None
  }

  /** Every contiguous key but 0 holds a non-empty name; the names longer than one character are the control keys. */
  lemma ContiguousEntries(sc: int)
    requires 0 <= sc <= 54
    ensures TableEntry(sc).value.None? <==> sc == 0
    ensures TableEntry(sc).value.Some? ==> |TableEntry(sc).value.value| >= 1
    ensures TableEntry(sc).value.Some? && |TableEntry(sc).value.value| != 1 ==>
      sc == 1 || sc == 14 || sc == 15 || sc == KEY_ENTER || sc == 29 || sc == KEY_LEFTSHIFT || sc == KEY_RIGHTSHIFT
  {
    var row, col := sc / 10, sc % 10;
    assert TableEntry(sc).value == TableRows()[row][col];
    assert sc == 10 * row + col;
  }

  /**
   * `self._scan_codes[sc]` used as the right operand of `+=` on a string:
   * `Some(name)` when the key exists and holds a string; `None` when the
   * lookup raises `KeyError` or yields `None` (so that `+=` raises `TypeError`).
   */
  function Lookup(sc: int): (r: Option<string>)
    ensures r.Some? <==> (1 <= sc <= 54 || sc == 56 || sc == 100)
    ensures r.Some? ==> |r.value| >= 1
    ensures r.Some? && |r.value| != 1 ==>
      sc == 1 || sc == 14 || sc == 15 || sc == KEY_ENTER || sc == 29 ||
      sc == KEY_LEFTSHIFT || sc == KEY_RIGHTSHIFT || sc == 56 || sc == 100
  {
    if 0 <= sc <= 54 then ContiguousEntries(sc); TableEntry(sc).value
    else if sc == 56 || sc == 100 then TableEntry(sc).value
    else None
  }

  /** The letter keys of the Q, W and shift-A scans. */
  lemma LetterEntries()
    ensures Lookup(16) == Some("Q") && Lookup(17) == Some("W") && Lookup(30) == Some("A")
  {
  }

  /** Control keys have multi-character names; shift keys are ordinary entries of the table. */
  lemma ControlEntries()
    ensures Lookup(KEY_ENTER) == Some("CRLF") && Lookup(KEY_LEFTSHIFT) == Some("LSHFT")
    ensures Lookup(KEY_RIGHTSHIFT) == Some("RSHFT") && Lookup(56) == Some("LALT")
  {
  }

  /** Key 0 and the gaps 55 and 57..99 give no name; 100 is the last entry. */
  lemma MissingEntries()
    ensures Lookup(0) == None && Lookup(55) == None && Lookup(57) == None && Lookup(99) == None
    ensures Lookup(101) == None && Lookup(-1) == None
  {
  }
}
