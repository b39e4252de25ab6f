/**
 * The response gate: the vendor answers with status 200 even on failure and
 * marks failure only by a body starting with "ERR", so the first three bytes
 * are peeked, without consuming them, before the status is looked at.
 */
module Gate {
  import opened Errors

  /** The failure marker "ERR" in ASCII. */
  const Marker: seq<byte> := [69, 82, 82]

  const StatusOK := 200

  /** What the gate does with a response: fail, or hand bytes to the JSON decoder. */
  datatype Verdict = Reject(error: Error) | Accept(bytes: seq<byte>)

  /**
   * The order of the checks: a body too short to peek fails first, then the
   * marker, and only then a non-200 status.
   */
  function Classify(status: int, body: seq<byte>): (v: Verdict)
  {
    if |body| < 3 then Reject(ShortBody)
    else if body[..3] == Marker then Reject(ErrorResponse(body))
    else if status != StatusOK then Reject(InvalidStatus(status))
    else Accept(body)
  }

  /** The marker fails the call whatever the status and carries the whole body, marker included. */
  lemma MarkerWinsOverStatus(status: int, body: seq<byte>)
    requires |body| >= 3 && body[..3] == Marker
    ensures Classify(status, body) == Reject(ErrorResponse(body))
    ensures Classify(status, body).error.body[..3] == Marker
  {
  }

  /** A body shorter than the marker fails even with status 200. */
  lemma ShortBodyFails(status: int, body: seq<byte>)
    requires |body| < 3
    ensures Classify(status, body) == Reject(ShortBody)
  {
  }

  /** Without the marker every status but 200 fails with that status. */
  lemma NonOkStatusFails(status: int, body: seq<byte>)
    requires |body| >= 3 && body[..3] != Marker && status != StatusOK
    ensures Classify(status, body) == Reject(InvalidStatus(status))
  {
  }

  /** The decoder is reached exactly for status 200 without the marker, and then gets every byte. */
  lemma AcceptedExactly(status: int, body: seq<byte>)
    ensures Classify(status, body).Accept? <==> status == StatusOK && |body| >= 3 && body[..3] != Marker
    ensures Classify(status, body).Accept? ==> Classify(status, body).bytes == body
  {
  }

  /** A buffered reader over a response body: peeking looks ahead, reading consumes. */
  class BufReader {
    var data: seq<byte>
    var pos: nat

    ghost predicate Valid()
      reads this
    {
      pos <= |data|
    }

    /** The bytes not yet consumed. */
    ghost function Unread(): seq<byte>
      reads this
      requires Valid()
    {
      data[pos..]
    }

    constructor (body: seq<byte>)
      ensures Valid() && data == body && pos == 0 && Unread() == body
    {
      data := body;
      pos := 0;
    }

    /**
     * The next n bytes without consuming them; ok is false when fewer remain,
     * and then all remaining bytes are returned.
     */
    method Peek(n: nat) returns (p: seq<byte>, ok: bool)
      requires Valid()
      ensures ok <==> n <= |Unread()|
      ensures ok ==> p == Unread()[..n]
      ensures !ok ==> p == Unread()
    {
      ok := pos + n <= |data|;
      if ok {
        p := data[pos..pos + n];
      } else {
        p := data[pos..];
      }
    }

    /** Consumes and returns everything that remains. */
    method ReadAll() returns (b: seq<byte>)
      requires Valid()
      modifies this
      ensures Valid() && data == old(data) && pos == |data|
      ensures b == old(Unread()) && Unread() == []
    {
      b := data[pos..];
      pos := |data|;
    }
  }

  /**
   * The gate as the client runs it on a response: buffer the body, peek three
   * bytes, read the rest on the marker, check the status, and hand the
   * still-buffered bytes on.
   */
  method Do(status: int, body: seq<byte>) returns (v: Verdict)
    ensures v == Classify(status, body)
  {
    var buf := new BufReader(body);
    var p, ok := buf.Peek(3);
    if !ok {
      return Reject(ShortBody);
    }
    if p == Marker {
      var b := buf.ReadAll();
      return Reject(ErrorResponse(b));
    }
    if status != StatusOK {
      return Reject(InvalidStatus(status));
    }
    var rest := buf.ReadAll();
    return Accept(rest);
  }

  /** "ERR: bad credentials" fails with that text whatever the status. */
  lemma BadCredentials(status: int)
    ensures
      var body: seq<byte> := [69, 82, 82, 58, 32, 98, 97, 100, 32, 99, 114, 101, 100, 101, 110, 116, 105, 97, 108, 115];
      Classify(status, body) == Reject(ErrorResponse(body))
  {
    var body: seq<byte> := [69, 82, 82, 58, 32, 98, 97, 100, 32, 99, 114, 101, 100, 101, 110, 116, 105, 97, 108, 115];
    assert body[..3] == Marker;
  }
}
