/** Helpers shared by the reducers: the cursor clamp and the filter for
    typed characters. */
module Utils {
  import opened TuiModel

  /** The views whose cursor walks a list, and the length of that list. */
  predicate IsListView(v: View) {
    v == FileView || v == BranchView || v == RemoteView
  }

  function ListLength(m: Model): nat {
    match m.currentView
    case FileView => |m.files|
    case BranchView => |m.branches|
    case RemoteView => |m.remotes|
    case _ => 0
  }

  /** A cursor clamped into a list of `n` entries: 0 for an empty list. */
  function Clamp(cursor: int, n: nat): (c: int)
    ensures 0 <= c && (c < n || c == 0)
    ensures n == 0 ==> c == 0
    ensures n > 0 && cursor >= n ==> c == n - 1
    ensures cursor < 0 ==> c == 0
    ensures 0 <= cursor < n ==> c == cursor
  {
    if n == 0 then 0
    else if cursor >= n then n - 1
    else if cursor < 0 then 0
    else cursor
  }

  /** `ValidateCursor`: in the file, branch and remote views the cursor is
      clamped into the list (to 0 when the list is empty); other views and
      other fields are left alone. */
  function ValidateCursor(m: Model): (r: Model)
    ensures r == m.(cursor := r.cursor)
    ensures IsListView(m.currentView) ==> r.cursor == Clamp(m.cursor, ListLength(m))
    ensures !IsListView(m.currentView) ==> r == m
  {
    if IsListView(m.currentView) then m.(cursor := Clamp(m.cursor, ListLength(m))) else m
  }

  /** Clamping twice is clamping once. */
  lemma ValidateCursorIdempotent(m: Model)
    ensures ValidateCursor(ValidateCursor(m)) == ValidateCursor(m)
  {
    var r := ValidateCursor(m);
    assert r.currentView == m.currentView && ListLength(r) == ListLength(m);
  }

  /** Clamping keeps a record well formed. */
  lemma ValidateCursorWellFormed(m: Model)
    requires WellFormed(m)
    ensures WellFormed(ValidateCursor(m))
  {
  }

  /** The cursor after one "up" or "down" press over `n` entries: it moves one
      step in the pressed direction when the list allows it, never below 0
      and never past the last entry, and it never wraps around. */
  function CursorStep(cursor: int, n: int, up: bool): (c: int)
    ensures up ==> c <= cursor && (cursor > 0 ==> c == cursor - 1)
    ensures !up ==> c >= cursor && (cursor < n - 1 ==> c == cursor + 1)
    ensures -1 <= c - cursor <= 1
    ensures cursor >= 0 ==> c >= 0
    ensures 0 <= cursor < n ==> 0 <= c < n
  {
    if up then (if cursor > 0 then cursor - 1 else cursor)
    else (if cursor < n - 1 then cursor + 1 else cursor)
  }

  /** `IsPrintableChar`: the runes the text fields accept, printable ASCII
      and the upper half of Latin-1. */
  predicate IsPrintableChar(r: int) {
    (32 <= r <= 126) || (128 <= r <= 255)
  }

  /** The boundary cases of the printable range. */
  lemma PrintableBoundaries()
    ensures !IsPrintableChar(31) && IsPrintableChar(32) && IsPrintableChar(65) && IsPrintableChar(126)
    ensures !IsPrintableChar(127) && IsPrintableChar(128) && IsPrintableChar(255) && !IsPrintableChar(256)
  {
  }
}
