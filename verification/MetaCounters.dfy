/** The counters of the metadata connection, on which client and server send under one key.

    Each end has an object for the connection whose counter every received frame overwrites, and
    meta_send works on a copy of it that it makes when it is first called. The client's object
    exists from the start, with counter 0. The server's is only made known to its meta_send when
    the first metadata frame of the client comes in, so the server is silent until then. Every
    step below is one frame sent or received; a frame whose counter fails the check is not sent.
 */
module MetaCounters {
  import opened Options
  import opened Wire

  /** One end: the counter of the connection's object, the copy meta_send works on, the counters
      of the frames sent, and how many of the peer's frames have been received. */
  datatype End = End(knob: nat, copy: Option<nat>, sent: seq<nat>, received: nat)

  datatype Link = Link(client: End, server: End)

  datatype Step = ClientSend | ServerSend | ClientReceive | ServerReceive

  function Start(): Link { Link(End(0, None, [], 0), End(0, None, [], 0)) }

  /** The counter of the next frame of meta_send. */
  function Next(e: End, server: bool): nat {
    NextIv(if e.copy.Some? then e.copy.value else e.knob, server, false)
  }

  function Sent(e: End, server: bool): End {
    e.(copy := Some(Next(e, server)), sent := e.sent + [Next(e, server)])
  }

  function Received(e: End, peer: End): End
    requires e.received < |peer.sent|
  {
    e.(knob := peer.sent[e.received], received := e.received + 1)
  }

  predicate Can(s: Link, a: Step) {
    match a
    case ClientSend => !Has61(Next(s.client, false))
    case ServerSend => s.server.received > 0 && !Has61(Next(s.server, true))
    case ClientReceive => s.client.received < |s.server.sent|
    case ServerReceive => s.server.received < |s.client.sent|
  }

  function Do(s: Link, a: Step): Link
    requires Can(s, a)
  {
    match a
    case ClientSend => s.(client := Sent(s.client, false))
    case ServerSend => s.(server := Sent(s.server, true))
    case ClientReceive => s.(client := Received(s.client, s.server))
    case ServerReceive => s.(server := Received(s.server, s.client))
  }

  // ---- Invariant ----

  /** The counters of one direction: valid, marked with the direction, and rising. */
  ghost predicate Rising(q: seq<nat>, server: bool) {
    && (forall i | 0 <= i < |q| :: IvOk(q[i]) && Has63(q[i]) == server)
    && (forall i, j | 0 <= i < j < |q| :: Low61(q[i]) < Low61(q[j]))
  }

  ghost predicate EndOk(e: End, server: bool) {
    && Rising(e.sent, server) && IvOk(e.knob)
    && (e.copy.Some? <==> e.sent != [])
    && (e.copy.Some? ==> e.copy.value == e.sent[|e.sent| - 1])
  }

  /** Before the client has made its copy, no frame has been sent in either direction, and its
      object still has the counter it started with. */
  ghost predicate Inv(s: Link) {
    && EndOk(s.client, false) && EndOk(s.server, true)
    && s.client.received <= |s.server.sent| && s.server.received <= |s.client.sent|
    && (s.client.copy.None? ==> s.server.sent == [] && s.client.knob == 0)
    && (s.server.sent != [] ==> s.client.sent != [])
  }

  lemma SendKeeps(e: End, server: bool)
    requires EndOk(e, server) && !Has61(Next(e, server))
    requires e.copy.None? && !server ==> e.knob == 0
    ensures EndOk(Sent(e, server), server)
  {
    var x := if e.copy.Some? then e.copy.value else e.knob;
    assert !Has63(0) && IvOk(0);
    IvAdvances(x, server, false);
    hide Has61, Has62, Has63, Low61, NextIv;
    var q, q' := e.sent, Sent(e, server).sent;
    forall i, j | 0 <= i < j < |q'|
      ensures Low61(q'[i]) < Low61(q'[j])
    {
      assert j == |q| ==> Low61(q[i]) <= Low61(q[|q| - 1]);
    }
  }

  lemma StepKeeps(s: Link, a: Step)
    requires Inv(s) && Can(s, a)
    ensures Inv(Do(s, a))
  {
    match a
    case ClientSend => SendKeeps(s.client, false);
    case ServerSend => SendKeeps(s.server, true);
    case ClientReceive =>
    case ServerReceive =>
  }

  predicate Legal(s: Link, run: seq<Step>)
    decreases |run|, 0
  {
    run == [] || (Legal(s, run[..|run| - 1]) && Can(Exec(s, run[..|run| - 1]), run[|run| - 1]))
  }

  function Exec(s: Link, run: seq<Step>): Link
    requires Legal(s, run)
    decreases |run|, 1
  {
    if run == [] then s else Do(Exec(s, run[..|run| - 1]), run[|run| - 1])
  }

  lemma {:induction false} RunKeeps(run: seq<Step>)
    requires Legal(Start(), run)
    ensures Inv(Exec(Start(), run))
    decreases |run|
  {
    if run == [] {
      assert IvOk(0);
    } else {
      RunKeeps(run[..|run| - 1]);
      StepKeeps(Exec(Start(), run[..|run| - 1]), run[|run| - 1]);
    }
  }

  /** In every run no two frames of the connection, in whichever direction, share a counter: the
      client has always made its copy before any frame of the server exists. */
  lemma CountersAreDistinct(run: seq<Step>)
    requires Legal(Start(), run)
    ensures var s := Exec(Start(), run);
            && (forall i, j | 0 <= i < j < |s.client.sent| :: s.client.sent[i] != s.client.sent[j])
            && (forall i, j | 0 <= i < j < |s.server.sent| :: s.server.sent[i] != s.server.sent[j])
            && (forall i, j | 0 <= i < |s.client.sent| && 0 <= j < |s.server.sent| ::
                  s.client.sent[i] != s.server.sent[j])
  {
    hide Has61, Has62, Has63, Low61, NextIv;
    RunKeeps(run);
    var s := Exec(Start(), run);
    forall i, j | 0 <= i < j < |s.client.sent|
      ensures s.client.sent[i] != s.client.sent[j]
    {
      assert Low61(s.client.sent[i]) < Low61(s.client.sent[j]);
    }
    forall i, j | 0 <= i < j < |s.server.sent|
      ensures s.server.sent[i] != s.server.sent[j]
    {
      assert Low61(s.server.sent[i]) < Low61(s.server.sent[j]);
    }
    forall i, j | 0 <= i < |s.client.sent| && 0 <= j < |s.server.sent|
      ensures s.client.sent[i] != s.server.sent[j]
    {
      assert Has63(s.client.sent[i]) != Has63(s.server.sent[j]);
    }
  }

  /** The client's copy is made of the counter 0, never of a counter of the server. */
  lemma ClientStartsClean(run: seq<Step>)
    requires Legal(Start(), run)
    ensures var s := Exec(Start(), run);
            && (s.client.copy.None? ==> s.client.knob == 0 && s.server.sent == [])
            && (s.client.copy.Some? ==> !Has63(s.client.copy.value))
  {
    hide Has61, Has62, Has63, Low61, NextIv;
    RunKeeps(run);
  }

  lemma Extend(s: Link, run: seq<Step>, a: Step)
    requires Legal(s, run) && Can(Exec(s, run), a)
    ensures Legal(s, run + [a]) && Exec(s, run + [a]) == Do(Exec(s, run), a)
  {
    assert (run + [a])[..|run|] == run;
  }

  lemma FirstCounters()
    ensures NextIv(0, false, false) == 1 && NextIv(1, false, false) == 2
    ensures NextIv(1, true, false) == 0x8000_0000_0000_0002
    ensures !Has61(1) && !Has61(2) && !Has61(0x8000_0000_0000_0002)
  {
  }

  /** The first exchange: the client's frame, the server's answer, the client's next frame. The client
      counts on from its own frame, the server from the client's with bit 63 set. */
  lemma FirstExchange() returns (run: seq<Step>)
    ensures Legal(Start(), run)
    ensures Exec(Start(), run).client.sent == [1, 2] && Exec(Start(), run).server.sent == [0x8000_0000_0000_0002]
  {
    run := [];
    assert Legal(Start(), run) && Exec(Start(), run) == Start();
    FirstCounters();
    hide NextIv, Has61, Legal, Exec;
    Extend(Start(), run, ClientSend);
    run := run + [ClientSend];
    Extend(Start(), run, ServerReceive);
    run := run + [ServerReceive];
    Extend(Start(), run, ServerSend);
    run := run + [ServerSend];
    Extend(Start(), run, ClientReceive);
    run := run + [ClientReceive];
    Extend(Start(), run, ClientSend);
    run := run + [ClientSend];
  }
}
