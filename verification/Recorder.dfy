/**
 The response recorder of the telemetry middleware over the writer it wraps (internal/telemetry/http.go,
 lines 221-256). Status codes are final ones: no handler of the repository sends an informational response.
 */
module Recorder {
  import opened Wrappers

  /** A handler's call on its response writer; of a write, the bytes the underlying writer accepts. */
  datatype Call = WriteHeader(code: int) | Write(accepted: nat)

  predicate Final(c: Call) { c.WriteHeader? ==> 200 <= c.code <= 999 }

  /** What the server has taken for the response; some of it may still be in its buffer. */
  datatype Wire = Wire(committed: Option<int>, accepted: nat)

  const UNWRITTEN := Wire(None, 0)

  /** The server keeps the first status; a write without one commits 200. */
  function OnWire(w: Wire, c: Call): Wire {
    match c
    case WriteHeader(code) => if w.committed.None? then w.(committed := Some(code)) else w
    case Write(n) => Wire(if w.committed.None? then Some(200) else w.committed, w.accepted + n)
  }

  /** The wire after a handler's calls, without a recorder in between. */
  function Played(calls: seq<Call>): Wire {
    if calls == [] then UNWRITTEN else OnWire(Played(calls[..|calls| - 1]), calls[|calls| - 1])
  }

  function Accepted(calls: seq<Call>): nat {
    if calls == [] then 0
    else
      var last := calls[|calls| - 1];
      Accepted(calls[..|calls| - 1]) + (if last.Write? then last.accepted else 0)
  }

  /** The first call decides the status, and every accepted byte counts. */
  lemma {:induction false} FirstCallWins(calls: seq<Call>)
    ensures Played(calls).accepted == Accepted(calls)
    ensures Played(calls).committed
            == if calls == [] then None else Some(if calls[0].WriteHeader? then calls[0].code else 200)
  {
    if |calls| == 1 {
      assert calls[..0] == [];
    } else if calls != [] {
      FirstCallWins(calls[..|calls| - 1]);
      assert calls[..|calls| - 1][0] == calls[0];
    }
  }

  class ResponseWriter {
    var committed: Option<int>
    var accepted: nat

    function OnTheWire(): Wire
      reads this
    {
      Wire(committed, accepted)
    }

    constructor ()
      ensures OnTheWire() == UNWRITTEN
    {
      committed, accepted := None, 0;
    }

    method WriteHeader(code: int)
      modifies this
      ensures OnTheWire() == OnWire(old(OnTheWire()), Call.WriteHeader(code))
    {
      if committed.None? {
        committed := Some(code);
      }
    }

    method Write(n: nat) returns (written: nat)
      modifies this
      ensures OnTheWire() == OnWire(old(OnTheWire()), Call.Write(n)) && written == n
    {
      if committed.None? {
        committed := Some(200);
      }
      accepted := accepted + n;
      written := n;
    }
  }

  class ResponseRecorder {
    const writer: ResponseWriter
    var status: int
    var bytesWritten: int

    /** The recorder agrees with the wire. */
    ghost predicate Valid()
      reads this, writer
    {
      && (status == 0 <==> writer.committed.None?)
      && (status != 0 ==> writer.committed == Some(status))
      && bytesWritten == writer.accepted
    }

    constructor (writer: ResponseWriter)
      requires writer.OnTheWire() == UNWRITTEN
      ensures Valid() && this.writer == writer
    {
      this.writer := writer;
      status, bytesWritten := 0, 0;
    }

    method WriteHeader(code: int)
      requires Valid() && 200 <= code <= 999
      modifies this`status, writer
      ensures Valid() && writer.OnTheWire() == OnWire(old(writer.OnTheWire()), Call.WriteHeader(code))
    {
      if status != 0 {
        return;
      }
      status := code;
      writer.WriteHeader(code);
    }

    method Write(n: nat) returns (written: nat)
      requires Valid()
      modifies this, writer
      ensures Valid() && writer.OnTheWire() == OnWire(old(writer.OnTheWire()), Call.Write(n)) && written == n
    {
      if status == 0 {
        WriteHeader(200);
      }
      written := writer.Write(n);
      bytesWritten := bytesWritten + written;
    }

    function StatusCode(): int
      reads this
    {
      if status == 0 then 200 else status
    }

    /**
     Any calls of a handler: the wire ends as it would without the recorder, and the recorder holds its
     status and its bytes.
     */
    method Play(calls: seq<Call>)
      requires Valid() && writer.OnTheWire() == UNWRITTEN
      requires forall c | c in calls :: Final(c)
      modifies this, writer
      ensures Valid() && writer.OnTheWire() == Played(calls)
      ensures bytesWritten == Accepted(calls)
      ensures StatusCode() == if calls == [] || calls[0].Write? then 200 else calls[0].code
    {
      for i := 0 to |calls|
        invariant Valid() && writer.OnTheWire() == Played(calls[..i])
      {
        assert calls[..i + 1][..i] == calls[..i];
        assert calls[i] in calls;
        match calls[i]
        case WriteHeader(code) => WriteHeader(code);
        case Write(n) => var _ := Write(n);
      }
      assert calls[..|calls|] == calls;
      FirstCallWins(calls);
    }
  }
}
