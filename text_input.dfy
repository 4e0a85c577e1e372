/** Editing of the text-entry buffers (commit message, new branch name, stash
    message). The buffers are Go strings, so they hold the UTF-8 bytes of
    what was typed, while a key press delivers a rune. */
module TextInput {
  import opened TuiModel
  import opened Utils

  /** The UTF-8 bytes Go's `string(runes)` produces for a rune below U+0800. */
  function Utf8(r: int): (b: Bytes)
    requires 0 <= r < 0x800
    ensures |b| == (if r < 0x80 then 1 else 2)
    ensures r < 0x80 ==> b[0] as int == r
    ensures r >= 0x80 ==>
      && 0xC0 <= b[0] as int < 0xE0 && 0x80 <= b[1] as int < 0xC0
      && (b[0] as int - 0xC0) * 64 + (b[1] as int - 0x80) == r
  {
    if r < 0x80 then [r as byte] else [(0xC0 + r / 64) as byte, (0x80 + r % 64) as byte]
  }

  /** Typing a printable rune appends its bytes. */
  function AppendRune(buf: Bytes, r: int): (b: Bytes)
    requires IsPrintableChar(r)
    ensures |b| > |buf| && b[..|buf|] == buf
  {
    buf + Utf8(r)
  }

  /** Backspace as the source writes it (update.go:506-512,
      stash_handler.go:149-151): the last byte goes, whatever character it
      belongs to. */
  function DeleteLastByte(buf: Bytes): (b: Bytes)
    ensures buf == [] ==> b == []
    ensures buf != [] ==> b == buf[..|buf| - 1]
  {
    if |buf| > 0 then buf[..|buf| - 1] else buf
  }

  /** Backspace as evidently intended: the last typed character goes, both of
      its bytes when it was encoded with two. */
  function DeleteLastChar(buf: Bytes): (b: Bytes)
    ensures buf == [] ==> b == []
    ensures buf != [] ==> |b| < |buf| && b == buf[..|b|]
  {
    if |buf| == 0 then buf
    else if |buf| >= 2 && 0x80 <= buf[|buf| - 1] < 0xC0 && 0xC0 <= buf[|buf| - 2] then buf[..|buf| - 2]
    else buf[..|buf| - 1]
  }

  /** Deleting the last character undoes typing it, for every rune the text
      fields accept. */
  lemma DeleteLastCharUndoesAppend(buf: Bytes, r: int)
    requires IsPrintableChar(r)
    ensures DeleteLastChar(AppendRune(buf, r)) == buf
  {
    var b := AppendRune(buf, r);
    assert b[..|buf|] == buf;
  }

  /** Deleting the last byte undoes typing a rune exactly when the rune is
      ASCII: after a Latin-1 letter such as 'é' (233) it leaves that letter's
      lead byte behind, and the buffer is no longer valid UTF-8. */
  lemma DeleteLastByteLeavesLeadByte(buf: Bytes, r: int)
    requires IsPrintableChar(r)
    ensures DeleteLastByte(AppendRune(buf, r)) == buf <==> r < 0x80
    ensures r >= 0x80 ==> DeleteLastByte(AppendRune(buf, r)) == buf + [Utf8(r)[0]]
  {
    var b := AppendRune(buf, r);
    if r >= 0x80 {
      assert b[..|b| - 1] == buf + [Utf8(r)[0]];
      assert |b[..|b| - 1]| != |buf|;
    } else {
      assert b[..|b| - 1] == buf;
    }
  }

  /** The concrete case: typing 'é' into an empty buffer and deleting it
      leaves the byte 0xC3. */
  lemma DeleteLastByteExample()
    ensures DeleteLastByte(AppendRune([], 233)) == [0xC3]
  {
    DeleteLastByteLeavesLeadByte([], 233);
  }

  /** The stash-message field accepts ASCII only, where deleting the last byte
      does undo typing. */
  lemma StashBufferRoundTrip(buf: Bytes, r: int)
    requires 32 <= r <= 126
    ensures DeleteLastByte(AppendRune(buf, r)) == buf
  {
    DeleteLastByteLeavesLeadByte(buf, r);
  }

  /** The bytes of an ASCII text. */
  function Ascii(s: string): (b: Bytes)
    requires forall k :: 0 <= k < |s| ==> s[k] as int < 0x80
    ensures |b| == |s| && forall k :: 0 <= k < |s| ==> b[k] as int == s[k] as int
  {
    if s == [] then [] else [s[0] as int as byte] + Ascii(s[1..])
  }

  /** The text of a buffer with one character per byte, as messages show it. */
  function Latin1(b: Bytes): (s: string)
    ensures |s| == |b| && forall k :: 0 <= k < |b| ==> s[k] as int == b[k] as int
  {
    if b == [] then [] else [b[0] as int as char] + Latin1(b[1..])
  }
}
