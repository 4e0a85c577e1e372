/** Asking the assistant for a commit message: the staged diff is cut to a
    bounded size before it goes into the prompt, and the reply is stripped of
    white space and of the quotes the assistant tends to put around it. The
    client and its chat request are outside the model; their outcomes are
    inputs. */
module Copilot {
  import opened Wrappers
  import opened Text
  import opened TuiModel
  import opened TextInput

  /** Bytes of diff sent at most. */
  const DiffLimit := 8000

  /** What replaces the rest of a longer diff. */
  const TruncationNote := "\n... (truncated)"

  /** The characters stripped from both ends of the reply after the white
      space. */
  const QuoteChars := "`\"'"

  /** The diff as it goes into the prompt: unchanged up to 8000 bytes, and
      otherwise its first 8000 bytes followed by the truncation note. */
  function TruncateDiff(diff: Bytes): (r: Bytes)
    ensures |diff| <= DiffLimit ==> r == diff
    ensures |diff| > DiffLimit ==> |r| == DiffLimit + |TruncationNote|
    ensures |diff| > DiffLimit ==> r[..DiffLimit] == diff[..DiffLimit] && Latin1(r[DiffLimit..]) == TruncationNote
  {
    if |diff| > DiffLimit then diff[..DiffLimit] + Ascii(TruncationNote) else diff
  }

  /** Truncation is a prefix of the diff plus the note, so nothing is sent
      that the diff did not hold, and a truncated diff is not cut again. */
  lemma TruncateDiffStable(diff: Bytes)
    ensures |TruncateDiff(diff)| <= DiffLimit + |TruncationNote|
    ensures |diff| <= DiffLimit ==> TruncateDiff(TruncateDiff(diff)) == diff
  {
  }

  /** The reply as the commit message: white space trimmed, then backticks
      and quotes trimmed. */
  function CleanResponse(response: string): (r: string)
    ensures |r| <= |response|
  {
    Trim(TrimSpace(response), QuoteChars)
  }

  /** The message neither starts nor ends with a backtick or quote. */
  lemma CleanResponseEnds(response: string)
    ensures CleanResponse(response) == []
      || (CleanResponse(response)[0] !in QuoteChars && CleanResponse(response)[|CleanResponse(response)| - 1] !in QuoteChars)
  {
    TrimEnds(TrimSpace(response), Chars(QuoteChars));
  }

  /** Trimming both ends keeps a piece of the text. */
  lemma TrimmedPiece(s: string, cut: Cutset) returns (i: int)
    ensures MatchAt(s, TrimRight(TrimLeft(s, cut), cut), i)
  {
    var l := TrimLeft(s, cut);
    TrimLeftSuffix(s, cut);
    var r := TrimRight(l, cut);
    TrimRightPrefix(l, cut);
    i := |s| - |l|;
    assert r == s[i..i + |r|];
  }

  /** A piece of a piece is a piece. */
  lemma PieceOfPiece(s: string, t: string, r: string, a: int, b: int)
    requires MatchAt(s, t, a) && MatchAt(t, r, b)
    ensures MatchAt(s, r, a + b)
  {
    forall k | 0 <= k < |r|
      ensures s[a + b + k] == r[k]
    {
      assert r[k] == t[b..b + |r|][k] == t[b + k];
      assert t[b + k] == s[a..a + |t|][b + k];
    }
    assert s[a + b..a + b + |r|] == r;
  }

  /** The message is a piece of the reply: trimming only cuts at the ends. */
  lemma CleanResponseIsPiece(response: string)
    ensures exists i :: MatchAt(response, CleanResponse(response), i)
  {
    var a := TrimmedPiece(response, WhiteSpace);
    var b := TrimmedPiece(TrimSpace(response), Chars(QuoteChars));
    PieceOfPiece(response, TrimSpace(response), CleanResponse(response), a, b);
  }

  /** A reply without white space or quotes at its ends is taken as it is. */
  lemma CleanReplyKept(response: string)
    requires response != [] ==> !IsSpace(response[0]) && !IsSpace(response[|response| - 1])
    requires response != [] ==> response[0] !in QuoteChars && response[|response| - 1] !in QuoteChars
    ensures CleanResponse(response) == response
  {
  }

  /** `GenerateCommitMessage`. `clientErr` is the error obtaining the client
      gave, if any, and `reply` the outcome of the chat request. A client
      error means no request is sent; otherwise the request carries the
      truncated diff, a failed request gives no message, and a reply is
      cleaned. `sent` is the diff part of the prompt, when a request is
      made. */
  method GenerateCommitMessage(diff: Bytes, clientErr: Option<string>, reply: Result<string>)
    returns (msg: string, err: Option<string>, sent: Option<Bytes>)
    ensures clientErr.Some? ==> msg == "" && err == clientErr && sent.None?
    ensures clientErr.None? ==> sent == Some(TruncateDiff(diff))
    ensures clientErr.None? && reply.Err? ==> msg == "" && err == Some(reply.error)
    ensures clientErr.None? && reply.Ok? ==> msg == CleanResponse(reply.value) && err.None?
  {
    if clientErr.Some? {
      return "", clientErr, None;
    }
    var d := diff;
    if |d| > DiffLimit {
      d := d[..DiffLimit] + Ascii(TruncationNote);
    }
    sent := Some(d);
    if reply.Err? {
      return "", Some(reply.error), sent;
    }
    var response := TrimSpace(reply.value);
    response := Trim(response, QuoteChars);
    return response, None, sent;
  }
}
