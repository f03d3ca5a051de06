/**
 The relay core: the radio link's receive step (`RadioCATLoop`), the client
 link's accept-and-relay loop (`ClientCATLoop`) and the frequency poll
 (`RadioQueryLoop`, which the script defines but does not start), each
 thread's loop body taken as one step on explicit state.
 Sockets are logs: what was sent to the radio, what was sent to the client.
 Once the receive step raises, the radio socket stays closed, and the other
 threads' writes to it raise in turn.
 */
module Relay {

  import opened Wrappers
  import opened Bytes
  import opened CatFrame
  import opened SerialHandoff
  import opened Panel

  /**
   The client thread's `conn`: 0 while it waits in accept, an open socket while a
   client is served, and the same socket, closed, from the end of its session
   until the next pass of the accept loop resets it.
   */
  datatype Conn = NoConn | Open | Closed

  /** Whether `conn` is truthy: any socket object, open or closed. */
  predicate Attached(c: Conn) {
    c != NoConn
  }

  /** The frequency query `FA;`. */
  const Query: Chunk := [TagF, TagA, Semicolon]

  /**
   Everything a radio receive step reads or writes: the radio thread's
   `last_frequency`, the serial hand-off slot, the display, the client's
   connection and the bytes sent to the client.
   */
  datatype View = View(lastFrequency: nat, slot: Slot, shown: Option<int>, conn: Conn, toClient: seq<Chunk>)

  /** The radio thread goes on receiving, or an exception ended it in this state. */
  datatype Outcome = Continue(view: View) | Raised(view: View)

  /** The state at the start of the program, with the client connection given. */
  function Start(conn: Conn): View {
    View(0, Empty, None, conn, [])
  }

  /** The serial slot holds the last frequency the radio link saw, delivered or not. */
  predicate InSync(v: View) {
    v.slot.serialBytes == v.lastFrequency
  }

  /** Echo to the client: appended to its socket when open, an error when closed, nothing without one. */
  function Forward(v: View, chunk: Chunk): (o: Outcome)
    ensures o.Raised? <==> v.conn == Closed
    ensures o.view.lastFrequency == v.lastFrequency && o.view.slot == v.slot
    ensures o.view.shown == v.shown && o.view.conn == v.conn
    ensures o.view.toClient == if v.conn == Open then v.toClient + [chunk] else v.toClient
  {
    match v.conn
    case NoConn => Continue(v)
    case Open => Continue(v.(toClient := v.toClient + [chunk]))
    case Closed => Raised(v)
  }

  /** Change detection for a parsed report. */
  function Observe(v: View, f: nat): (w: View)
    ensures w.lastFrequency == f && w.conn == v.conn && w.toClient == v.toClient
    ensures v.lastFrequency != f ==> w.slot == Post(v.slot, f) && w.shown == Some(f)
    ensures v.lastFrequency == f ==> w == v
  {
    if v.lastFrequency != f then v.(lastFrequency := f, slot := Post(v.slot, f), shown := Some(f))
    else v
  }

  /** One chunk received from the radio. */
  function OnChunk(v: View, chunk: Chunk): (o: Outcome)
    ensures o.view.conn == v.conn
    ensures o.view.toClient == v.toClient || o.view.toClient == v.toClient + [chunk]
    ensures o.view.lastFrequency != v.lastFrequency
      ==> Inspect(chunk).Report? && o.view.lastFrequency == Inspect(chunk).frequency
    ensures o.view.slot != v.slot ==> o.view.slot == Post(v.slot, o.view.lastFrequency)
  {
    match Inspect(chunk)
    case Opaque => Forward(v, chunk)
    case Malformed => Raised(v)
    case Report(f) => Forward(Observe(v, f), chunk)
  }

  /** Successive chunks from the radio, until one raises. */
  function OnChunks(v: View, chunks: seq<Chunk>): (o: Outcome)
    ensures o.view.conn == v.conn
    ensures |v.toClient| <= |o.view.toClient| <= |v.toClient| + |chunks|
    ensures o.view.toClient[..|v.toClient|] == v.toClient
    decreases |chunks|
  {
    if chunks == [] then Continue(v)
    else match OnChunk(v, chunks[0])
      case Raised(w) => Raised(w)
      case Continue(w) => OnChunks(w, chunks[1..])
  }

  /**
   A chunk without the `FA` tag at its start is forwarded byte for byte to an
   open client socket, and leaves the frequency, the slot and the display alone.
   */
  lemma OpaqueChunkPassesThrough(v: View, chunk: Chunk)
    requires !HasReportTag(chunk)
    ensures OnChunk(v, chunk).Raised? <==> v.conn == Closed
    ensures OnChunk(v, chunk).view
      == v.(toClient := if v.conn == Open then v.toClient + [chunk] else v.toClient)
  {
  }

  /** A payload that does not parse raises before anything is changed or forwarded. */
  lemma MalformedChunkRaises(v: View, chunk: Chunk)
    requires Inspect(chunk).Malformed?
    ensures OnChunk(v, chunk) == Raised(v)
  {
  }

  /**
   A parsed report becomes the last frequency; the slot and the display are
   written exactly when it differs from the previous one; the chunk is
   forwarded either way.
   */
  lemma ReportUpdatesOnChange(v: View, chunk: Chunk, f: nat)
    requires Inspect(chunk) == Report(f)
    ensures OnChunk(v, chunk).Raised? <==> v.conn == Closed
    ensures OnChunk(v, chunk).view.lastFrequency == f
    ensures OnChunk(v, chunk).view.slot == if f != v.lastFrequency then Post(v.slot, f) else v.slot
    ensures OnChunk(v, chunk).view.shown == if f != v.lastFrequency then Some(f) else v.shown
    ensures OnChunk(v, chunk).view.toClient
      == if v.conn == Open then v.toClient + [chunk] else v.toClient
  {
  }

  /** The same report twice in a row submits nothing the second time. */
  lemma RepeatedReportSubmitsNothing(v: View, chunk: Chunk)
    requires Inspect(chunk).Report? && OnChunk(v, chunk).Continue?
    ensures OnChunk(OnChunk(v, chunk).view, chunk).view.slot == OnChunk(v, chunk).view.slot
  {
  }

  /** A first report of 0 Hz matches the initial `last_frequency` and submits nothing. */
  lemma FirstZeroReportSubmitsNothing(conn: Conn, rest: Chunk)
    ensures OnChunk(Start(conn), FrequencyReport(0) + rest).view.slot == Empty
  {
    ReportIsRecognised(0, rest);
  }

  /** Every radio step keeps the slot in step with `last_frequency`. */
  lemma OnChunkKeepsSync(v: View, chunk: Chunk)
    requires InSync(v)
    ensures InSync(OnChunk(v, chunk).view)
  {
  }

  /** So does every pass of the serial thread: what it delivers is the radio's latest frequency. */
  lemma DrainDeliversLatest(v: View)
    requires InSync(v)
    ensures InSync(v.(slot := Drain(v.slot).slot))
    ensures forall i :: 0 <= i < |Drain(v.slot).delivered| ==> Drain(v.slot).delivered[i] == v.lastFrequency
  {
  }

  /** Over any run of untagged chunks with a client attached, the client receives exactly those chunks. */
  lemma {:induction false} OpaqueStreamPassesThrough(v: View, chunks: seq<Chunk>)
    requires v.conn == Open
    requires forall i :: 0 <= i < |chunks| ==> !HasReportTag(chunks[i])
    ensures OnChunks(v, chunks) == Continue(v.(toClient := v.toClient + chunks))
    decreases |chunks|
  {
    if chunks == [] {
      assert v.toClient + chunks == v.toClient;
    } else {
      OpaqueChunkPassesThrough(v, chunks[0]);
      var w := v.(toClient := v.toClient + [chunks[0]]);
      OpaqueStreamPassesThrough(w, chunks[1..]);
      assert w.toClient + chunks[1..] == v.toClient + chunks;
    }
  }

  /**
   Two different reports arriving before the serial thread runs are coalesced:
   the next drain delivers only the second.
   */
  lemma ReportsCoalesceBeforeDrain(v: View, a: nat, b: nat)
    requires v.conn != Closed
    requires a < Pow10(PayloadWidth) && b < Pow10(PayloadWidth)
    requires a != v.lastFrequency || b != a
    ensures OnChunks(v, [FrequencyReport(a), FrequencyReport(b)]).Continue?
    ensures Drain(OnChunks(v, [FrequencyReport(a), FrequencyReport(b)]).view.slot).delivered == [b]
  {
    ReportIsRecognised(a, []);
    ReportIsRecognised(b, []);
    assert FrequencyReport(a) + [] == FrequencyReport(a);
    assert FrequencyReport(b) + [] == FrequencyReport(b);
    var w := OnChunk(v, FrequencyReport(a)).view;
    assert [FrequencyReport(a), FrequencyReport(b)][1..] == [FrequencyReport(b)];
    assert OnChunks(w, [FrequencyReport(b)]) == OnChunk(w, FrequencyReport(b));
  }

  /**
   `FA00014074000;` arriving at start-up with a client attached: the frequency
   becomes 14074000, the display shows it, the client receives the chunk
   unchanged and the next serial pass delivers 14074000.
   */
  lemma EndToEndReport()
    ensures var chunk: Chunk := [70, 65, 48, 48, 48, 49, 52, 48, 55, 52, 48, 48, 48, 59];
      var o := OnChunk(Start(Open), chunk);
      && o.Continue?
      && o.view.lastFrequency == 14074000
      && o.view.shown == Some(14074000)
      && o.view.toClient == [chunk]
      && Drain(o.view.slot).delivered == [14074000]
  {
    ExampleReport();
  }

  /** What one pass of the poll loop sends to the radio. */
  function PollOutput(conn: Conn): (out: seq<Chunk>)
    ensures out == [] <==> Attached(conn)
    ensures forall i :: 0 <= i < |out| ==> out[i] == Query
  {
    if Attached(conn) then [] else [Query]
  }

  /** What successive passes of the poll loop send, given the connection at each pass. */
  function PollRun(conns: seq<Conn>): (out: seq<Chunk>)
    ensures |out| <= |conns|
    decreases |conns|
  {
    if conns == [] then [] else PollOutput(conns[0]) + PollRun(conns[1..])
  }

  /** Polls only ever send `FA;`, and send nothing at all exactly when a client was attached at every pass. */
  lemma {:induction false} PollsOnlyWhileDetached(conns: seq<Conn>)
    ensures PollRun(conns) == [] <==> forall i :: 0 <= i < |conns| ==> Attached(conns[i])
    ensures forall j :: 0 <= j < |PollRun(conns)| ==> PollRun(conns)[j] == Query
    decreases |conns|
  {
    if conns != [] {
      PollsOnlyWhileDetached(conns[1..]);
      if forall i :: 0 <= i < |conns[1..]| ==> Attached(conns[1..][i]) {
        if Attached(conns[0]) {
          forall i | 0 <= i < |conns| ensures Attached(conns[i]) {
            if i > 0 { assert conns[i] == conns[1..][i - 1]; }
          }
        }
      } else {
        var i :| 0 <= i < |conns[1..]| && !Attached(conns[1..][i]);
        assert !Attached(conns[i + 1]);
      }
    }
  }

  /**
   The chunks one client session relays to the radio: everything received, up
   to and including the first empty chunk (the client closing), or all of it
   while the client stays connected.
   */
  function RelayedPrefix(incoming: seq<Chunk>): (r: seq<Chunk>)
    ensures |r| <= |incoming|
    decreases |incoming|
  {
    if incoming == [] then []
    else if incoming[0] == [] then [[]]
    else [incoming[0]] + RelayedPrefix(incoming[1..])
  }

  /**
   What a session relays is a prefix of what it received, all non-empty but
   the last, and it ends with the empty chunk exactly when one was received.
   */
  lemma {:induction false} RelayedPrefixShape(incoming: seq<Chunk>)
    ensures |RelayedPrefix(incoming)| <= |incoming|
    ensures RelayedPrefix(incoming) == incoming[..|RelayedPrefix(incoming)|]
    ensures forall i :: 0 <= i < |RelayedPrefix(incoming)| - 1 ==> RelayedPrefix(incoming)[i] != []
    ensures [] in incoming <==> |RelayedPrefix(incoming)| > 0 && RelayedPrefix(incoming)[|RelayedPrefix(incoming)| - 1] == []
    decreases |incoming|
  {
    if incoming != [] && incoming[0] != [] {
      var tail := incoming[1..];
      RelayedPrefixShape(tail);
      var r := RelayedPrefix(tail);
      assert RelayedPrefix(incoming) == [incoming[0]] + r;
      assert incoming[..|r| + 1] == [incoming[0]] + tail[..|r|];
      assert [] in incoming <==> [] in tail;
    }
  }

  /** A run of non-empty chunks is relayed whole, and relaying goes on after it. */
  lemma {:induction false} RelayedUpTo(incoming: seq<Chunk>, n: nat)
    requires n <= |incoming|
    requires forall k :: 0 <= k < n ==> incoming[k] != []
    ensures RelayedPrefix(incoming) == incoming[..n] + RelayedPrefix(incoming[n..])
    decreases n
  {
    if n > 0 {
      var tail := incoming[1..];
      assert incoming[0] != [];
      assert RelayedPrefix(incoming) == [incoming[0]] + RelayedPrefix(tail);
      forall k | 0 <= k < n - 1
        ensures tail[k] != []
      {
        assert tail[k] == incoming[k + 1];
      }
      RelayedUpTo(tail, n - 1);
      assert tail[n - 1..] == incoming[n..];
      assert incoming[..n] == [incoming[0]] + tail[..n - 1];
    }
  }

  /** The radio thread: its socket's outgoing bytes and its `last_frequency`. */
  class RadioLoop {
    var lastFrequency: nat
    var sent: seq<Chunk>
    /** The receive loop has raised: leaving its `with` block closed the socket. */
    var closed: bool

    constructor ()
      ensures lastFrequency == 0 && sent == [] && !closed
    {
      lastFrequency := 0;
      sent := [];
      closed := false;
    }

    /**
     Bytes written to the radio's CAT socket by another thread. On a closed
     socket the write raises (`raised`) and nothing is sent.
     */
    method Send(chunk: Chunk) returns (raised: bool)
      modifies this
      ensures raised == closed && closed == old(closed)
      ensures sent == old(sent) + (if raised then [] else [chunk])
      ensures lastFrequency == old(lastFrequency)
    {
      raised := closed;
      if !closed {
        sent := sent + [chunk];
      }
    }

    /**
     One pass of the receive loop, on the chunk `recv` returned, while the
     thread still runs; `raised` is true when it ended the thread, which
     closes the socket.
     */
    method HandleChunk(chunk: Chunk, client: ClientLoop, serial: SerialLoop, panel: SteppirPanel)
      returns (raised: bool)
      requires !closed
      modifies this, client, serial, panel
      ensures OnChunk(old(ViewOf(this, client, serial, panel)), chunk)
        == if raised then Raised(ViewOf(this, client, serial, panel))
           else Continue(ViewOf(this, client, serial, panel))
      ensures sent == old(sent) && closed == raised
    {
      var inspection := Inspect(chunk);
      if inspection.Malformed? {
        closed := true;
        return true;
      }
      if inspection.Report? {
        var frequency := inspection.frequency;
        if lastFrequency != frequency {
          lastFrequency := frequency;
          serial.serialBytes := frequency;
          serial.serialSend := true;
          panel.shown := Some(frequency);
        }
      }
      raised := false;
      if client.conn == Open {
        client.toClient := client.toClient + [chunk];
      } else if client.conn == Closed {
        raised := true;
        closed := true;
      }
    }
  }

  /** The state a radio receive step sees, read off the four objects. */
  function ViewOf(radio: RadioLoop, client: ClientLoop, serial: SerialLoop, panel: SteppirPanel): View
    reads radio, client, serial, panel
  {
    View(radio.lastFrequency, serial.State(), panel.shown, client.conn, client.toClient)
  }

  /** The client thread: its current connection and the bytes sent on it by the radio thread. */
  class ClientLoop {
    var conn: Conn
    var toClient: seq<Chunk>

    constructor ()
      ensures conn == NoConn && toClient == []
    {
      conn := NoConn;
      toClient := [];
    }

    /** Top of the accept loop: `conn` is reset so other threads see no client while it waits. */
    method AwaitClient()
      modifies this
      ensures conn == NoConn && toClient == old(toClient)
    {
      conn := NoConn;
    }

    /** A client connected. */
    method Accept()
      requires conn == NoConn
      modifies this
      ensures conn == Open && toClient == old(toClient)
    {
      conn := Open;
    }

    /**
     Serves the connected client over the chunks it sends: each is forwarded to
     the radio as received, the empty one included, and the session ends
     (closing the socket) at the first empty chunk. `consumed` says how many
     chunks were read. When the radio's socket is already closed, the first
     forward raises: the `with` block closes the client's socket and the
     thread ends (`raised`).
     */
    method Serve(incoming: seq<Chunk>, radio: RadioLoop) returns (consumed: nat, raised: bool)
      requires conn == Open
      modifies this, radio
      ensures raised == (radio.closed && incoming != [])
      ensures consumed == if radio.closed then (if raised then 1 else 0) else |RelayedPrefix(incoming)|
      ensures radio.sent == old(radio.sent) + (if radio.closed then [] else RelayedPrefix(incoming))
      ensures radio.lastFrequency == old(radio.lastFrequency) && radio.closed == old(radio.closed)
      ensures conn == if raised || [] in incoming then Closed else Open
      ensures toClient == old(toClient)
    {
      consumed := 0;
      raised := false;
      while consumed < |incoming|
        invariant 0 <= consumed <= |incoming|
        invariant conn == Open && toClient == old(toClient) && !raised
        invariant radio.lastFrequency == old(radio.lastFrequency) && radio.closed == old(radio.closed)
        invariant radio.closed ==> consumed == 0
        invariant radio.sent == old(radio.sent) + incoming[..consumed]
        invariant forall k :: 0 <= k < consumed ==> incoming[k] != []
      {
        var chunk := incoming[consumed];
        var failed := radio.Send(chunk);
        if failed {
          conn := Closed;
          return 1, true;
        }
        assert incoming[..consumed + 1] == incoming[..consumed] + [chunk];
        if chunk == [] {
          RelayedUpTo(incoming, consumed);
          assert RelayedPrefix(incoming[consumed..]) == [[]];
          conn := Closed;
          consumed := consumed + 1;
          break;
        }
        consumed := consumed + 1;
      }
      if conn == Open {
        RelayedUpTo(incoming, consumed);
        assert incoming[..consumed] == incoming;
      }
    }
  }

  /**
   One pass of the poll loop: `FA;` goes to the radio only while no client is
   attached; on a closed radio socket that write raises and ends the poll
   thread (`raised`).
   */
  method PollStep(client: ClientLoop, radio: RadioLoop) returns (raised: bool)
    modifies radio
    ensures raised == (radio.closed && !Attached(client.conn))
    ensures radio.sent == old(radio.sent) + (if radio.closed then [] else PollOutput(client.conn))
    ensures radio.lastFrequency == old(radio.lastFrequency) && radio.closed == old(radio.closed)
  {
    raised := false;
    if !Attached(client.conn) {
      raised := radio.Send(Query);
    }
  }
}
