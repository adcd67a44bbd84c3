/** The lock around meta_send: any number of threads, one connection.

    A thread adds one to the lock; if the old value was not zero it takes its one back and tries
    again. Inside, it writes its frame to the shared stream in pieces, then takes its one back.
    Every action is one atomic operation on the lock or one write.

    `frames` records the frames in the order they were finished, and `handed` the frames the threads
    were given to send.
 */
module MetaLock {
  import opened Blocks

  datatype Thread =
    | Outside(frame: seq<Byte>)                   // has a frame to send
    | Backing(frame: seq<Byte>)                   // found the lock taken, will subtract
    | Inside(frame: seq<Byte>, written: nat)

  datatype State = State(lock: int, threads: seq<Thread>, stream: seq<Byte>, frames: seq<seq<Byte>>,
                         handed: seq<seq<Byte>>)

  datatype Step = Add(t: nat) | Retreat(t: nat) | Write(t: nat, n: nat) | Leave(t: nat, next: seq<Byte>)

  function Start(first: seq<seq<Byte>>): State {
    State(0, seq(|first|, i requires 0 <= i < |first| => Outside(first[i])), [], [], first)
  }

  predicate Can(s: State, a: Step) {
    a.t < |s.threads| && var x := s.threads[a.t];
    match a
    case Add(_) => x.Outside?
    case Retreat(_) => x.Backing?
    case Write(_, n) => x.Inside? && x.written + n <= |x.frame|
    case Leave(_, _) => x.Inside? && x.written == |x.frame|
  }

  function Do(s: State, a: Step): State
    requires Can(s, a)
  {
    var t, x := a.t, s.threads[a.t];
    match a
    case Add(_) =>
      s.(lock := s.lock + 1, threads := s.threads[t := if s.lock == 0 then Inside(x.frame, 0) else Backing(x.frame)])
    case Retreat(_) => s.(lock := s.lock - 1, threads := s.threads[t := Outside(x.frame)])
    case Write(_, n) =>
      s.(stream := s.stream + x.frame[x.written..x.written + n],
         threads := s.threads[t := Inside(x.frame, x.written + n)])
    case Leave(_, next) =>
      s.(lock := s.lock - 1, threads := s.threads[t := Outside(next)], frames := s.frames + [x.frame],
         handed := s.handed + [next])
  }

  // ---- Invariant ----

  /** How many threads are inside or backing off. */
  function Engaged(threads: seq<Thread>): nat {
    if threads == [] then 0
    else Engaged(threads[..|threads| - 1]) + if threads[|threads| - 1].Outside? then 0 else 1
  }

  lemma {:induction false} EngagedUpdate(threads: seq<Thread>, t: nat, x: Thread)
    requires t < |threads|
    ensures Engaged(threads[t := x]) ==
            Engaged(threads) + (if x.Outside? then 0 else 1) - (if threads[t].Outside? then 0 else 1)
    decreases |threads|
  {
    var m := |threads| - 1;
    if t == m {
      assert threads[t := x][..m] == threads[..m];
    } else {
      assert threads[t := x][..m] == threads[..m][t := x];
      EngagedUpdate(threads[..m], t, x);
    }
  }

  lemma {:induction false} EngagedAtLeast(threads: seq<Thread>, t: nat)
    requires t < |threads| && !threads[t].Outside?
    ensures Engaged(threads) > 0
    decreases |threads|
  {
    if t < |threads| - 1 {
      EngagedAtLeast(threads[..|threads| - 1], t);
    }
  }

  function Tally(b: bool): nat { if b then 1 else 0 }

  /** How many threads still have frame `x` to send. */
  function Holding(threads: seq<Thread>, x: seq<Byte>): nat {
    if threads == [] then 0
    else Holding(threads[..|threads| - 1], x) + Tally(threads[|threads| - 1].frame == x)
  }

  /** How often frame `x` is in the list. */
  function Times(q: seq<seq<Byte>>, x: seq<Byte>): nat {
    if q == [] then 0 else Times(q[..|q| - 1], x) + Tally(q[|q| - 1] == x)
  }

  lemma {:induction false} HoldingUpdate(threads: seq<Thread>, t: nat, y: Thread, x: seq<Byte>)
    requires t < |threads|
    ensures Holding(threads[t := y], x) == Holding(threads, x) + Tally(y.frame == x) - Tally(threads[t].frame == x)
    decreases |threads|
  {
    var m := |threads| - 1;
    if t == m {
      assert threads[t := y][..m] == threads[..m];
    } else {
      assert threads[t := y][..m] == threads[..m][t := y];
      HoldingUpdate(threads[..m], t, y, x);
    }
  }

  lemma {:induction false} HoldingAtStart(threads: seq<Thread>, first: seq<seq<Byte>>, x: seq<Byte>)
    requires |threads| == |first| && forall i | 0 <= i < |first| :: threads[i].frame == first[i]
    ensures Holding(threads, x) == Times(first, x)
    decreases |first|
  {
    if first != [] {
      var m := |first| - 1;
      HoldingAtStart(threads[..m], first[..m], x);
    }
  }

  /** Frames finished and frames held are all the frames handed in. */
  ghost predicate NoneLost(s: State) {
    forall x :: Times(s.frames, x) + Holding(s.threads, x) == Times(s.handed, x)
  }

  lemma StepLosesNone(s: State, a: Step)
    requires Can(s, a) && NoneLost(s)
    ensures NoneLost(Do(s, a))
  {
    var s' := Do(s, a);
    forall x
      ensures Times(s'.frames, x) + Holding(s'.threads, x) == Times(s'.handed, x)
    {
      HoldingUpdate(s.threads, a.t, s'.threads[a.t], x);
      if a.Leave? {
        assert s'.frames[..|s.frames|] == s.frames && s'.handed[..|s.handed|] == s.handed;
      }
    }
  }

  function Flat(frames: seq<seq<Byte>>): seq<Byte> {
    if frames == [] then [] else Flat(frames[..|frames| - 1]) + frames[|frames| - 1]
  }

  ghost predicate AtMostOneInside(threads: seq<Thread>) {
    forall t, u | 0 <= t < |threads| && 0 <= u < |threads| && threads[t].Inside? && threads[u].Inside? :: t == u
  }

  ghost predicate Inv(s: State) {
    && NoneLost(s)
    && s.lock == Engaged(s.threads)
    && AtMostOneInside(s.threads)
    && (forall t | 0 <= t < |s.threads| && s.threads[t].Inside? ::
          s.threads[t].written <= |s.threads[t].frame| &&
          s.stream == Flat(s.frames) + s.threads[t].frame[..s.threads[t].written])
    && ((forall t | 0 <= t < |s.threads| :: !s.threads[t].Inside?) ==> s.stream == Flat(s.frames))
  }

  lemma AddKeeps(s: State, t: nat)
    requires Inv(s) && Can(s, Add(t))
    ensures Inv(Do(s, Add(t)))
  {
    StepLosesNone(s, Add(t));
    hide NoneLost;
    EngagedUpdate(s.threads, t, Do(s, Add(t)).threads[t]);
    if s.lock == 0 {
      forall u | 0 <= u < |s.threads|
        ensures !s.threads[u].Inside?
      {
        if s.threads[u].Inside? {
          EngagedAtLeast(s.threads, u);
          assert false;
        }
      }
    } else {
      Others(s, Do(s, Add(t)), t);
    }
  }

  /** A thread that is inside neither before nor after does not matter to the stream. */
  lemma Others(s: State, s': State, t: nat)
    requires Inv(s) && t < |s.threads| && s'.stream == s.stream && s'.frames == s.frames
    requires s'.lock == Engaged(s'.threads) && NoneLost(s')
    requires |s'.threads| == |s.threads| && s'.threads == s.threads[t := s'.threads[t]]
    requires !s.threads[t].Inside? && !s'.threads[t].Inside?
    ensures Inv(s')
  {
    hide NoneLost;
    if u :| 0 <= u < |s.threads| && s.threads[u].Inside? {
      assert s'.threads[u].Inside?;
    }
  }

  lemma RetreatKeeps(s: State, t: nat)
    requires Inv(s) && Can(s, Retreat(t))
    ensures Inv(Do(s, Retreat(t)))
  {
    StepLosesNone(s, Retreat(t));
    hide NoneLost;
    EngagedUpdate(s.threads, t, Do(s, Retreat(t)).threads[t]);
    Others(s, Do(s, Retreat(t)), t);
  }

  lemma WriteKeeps(s: State, t: nat, n: nat)
    requires Inv(s) && Can(s, Write(t, n))
    ensures Inv(Do(s, Write(t, n)))
  {
    var x := s.threads[t];
    StepLosesNone(s, Write(t, n));
    hide NoneLost;
    EngagedUpdate(s.threads, t, Do(s, Write(t, n)).threads[t]);
    assert x.frame[..x.written] + x.frame[x.written..x.written + n] == x.frame[..x.written + n];
    assert Do(s, Write(t, n)).threads[t].Inside?;
  }

  lemma LeaveKeeps(s: State, t: nat, next: seq<Byte>)
    requires Inv(s) && Can(s, Leave(t, next))
    ensures Inv(Do(s, Leave(t, next)))
  {
    var x := s.threads[t];
    StepLosesNone(s, Leave(t, next));
    hide NoneLost;
    EngagedUpdate(s.threads, t, Do(s, Leave(t, next)).threads[t]);
    assert x.frame[..x.written] == x.frame;
    assert (s.frames + [x.frame])[..|s.frames|] == s.frames;
  }

  predicate Legal(s: State, run: seq<Step>)
    decreases |run|, 0
  {
    run == [] || (Legal(s, run[..|run| - 1]) && Can(Exec(s, run[..|run| - 1]), run[|run| - 1]))
  }

  function Exec(s: State, run: seq<Step>): State
    requires Legal(s, run)
    decreases |run|, 1
  {
    if run == [] then s else Do(Exec(s, run[..|run| - 1]), run[|run| - 1])
  }

  lemma {:induction false} NoneEngaged(threads: seq<Thread>)
    requires forall t | 0 <= t < |threads| :: threads[t].Outside?
    ensures Engaged(threads) == 0
    decreases |threads|
  {
    if threads != [] {
      NoneEngaged(threads[..|threads| - 1]);
    }
  }

  lemma {:induction false} RunKeeps(first: seq<seq<Byte>>, run: seq<Step>)
    requires Legal(Start(first), run)
    ensures Inv(Exec(Start(first), run))
    decreases |run|
  {
    if run == [] {
      NoneEngaged(Start(first).threads);
      forall x
        ensures Holding(Start(first).threads, x) == Times(first, x)
      {
        HoldingAtStart(Start(first).threads, first, x);
      }
    } else {
      var a := run[|run| - 1];
      RunKeeps(first, run[..|run| - 1]);
      var s := Exec(Start(first), run[..|run| - 1]);
      match a
      case Add(t) => AddKeeps(s, t);
      case Retreat(t) => RetreatKeeps(s, t);
      case Write(t, n) => WriteKeeps(s, t, n);
      case Leave(t, next) => LeaveKeeps(s, t, next);
    }
  }

  /** In every run at most one thread is inside, the lock counts the threads inside and backing
      off, and the stream is a sequence of whole frames followed at most by the beginning of the
      frame of the thread that is inside. Every frame handed in was finished or is still held. */
  lemma FramesStayWhole(first: seq<seq<Byte>>, run: seq<Step>)
    requires Legal(Start(first), run)
    ensures var s := Exec(Start(first), run);
            && s.lock == Engaged(s.threads)
            && AtMostOneInside(s.threads)
            && (forall x :: Times(s.frames, x) + Holding(s.threads, x) == Times(s.handed, x))
            && (s.stream == Flat(s.frames) ||
                exists t | 0 <= t < |s.threads| && s.threads[t].Inside? ::
                  && s.threads[t].written <= |s.threads[t].frame|
                  && s.stream == Flat(s.frames) + s.threads[t].frame[..s.threads[t].written])
  {
    RunKeeps(first, run);
  }

  // ---- No thread is shut out ----

  ghost predicate Leads(s: State, run: seq<Step>, e: State) {
    Legal(s, run) && Exec(s, run) == e
  }

  lemma OneMore(s: State, run: seq<Step>, e: State, a: Step)
    requires Leads(s, run, e) && Can(e, a)
    ensures Leads(s, run + [a], Do(e, a))
  {
    assert (run + [a])[..|run|] == run;
  }

  /** The rest of its frame is written by a thread inside, which then leaves. */
  lemma GetsOut(s: State, run: seq<Step>, e: State, u: nat) returns (run': seq<Step>, e': State)
    requires Leads(s, run, e) && Inv(e) && u < |e.threads| && e.threads[u].Inside?
    ensures Leads(s, run', e') && Inv(e') && e'.threads == e.threads[u := Outside([])]
    ensures e'.frames == e.frames + [e.threads[u].frame]
  {
    hide Leads;
    var x := e.threads[u];
    var n := |x.frame| - x.written;
    WriteKeeps(e, u, n);
    LeaveKeeps(Do(e, Write(u, n)), u, []);
    OneMore(s, run, e, Write(u, n));
    OneMore(s, run + [Write(u, n)], Do(e, Write(u, n)), Leave(u, []));
    hide Inv;
    run', e' := run + [Write(u, n)] + [Leave(u, [])], Do(Do(e, Write(u, n)), Leave(u, []));
  }

  lemma OneOut(s: State, run: seq<Step>, e: State, u: nat) returns (run': seq<Step>, e': State)
    requires Leads(s, run, e) && Inv(e) && u < |e.threads| && !e.threads[u].Outside?
    ensures Leads(s, run', e') && Inv(e') && e.frames <= e'.frames
    ensures |e'.threads| == |e.threads| && forall t | 0 <= t < |e.threads| && t != u :: e'.threads[t] == e.threads[t]
    ensures e'.threads[u].Outside? && Engaged(e'.threads) < Engaged(e.threads)
  {
    hide Leads, Inv;
    if e.threads[u].Backing? {
      OneMore(s, run, e, Retreat(u));
      RetreatKeeps(e, u);
      run', e' := run + [Retreat(u)], Do(e, Retreat(u));
    } else {
      run', e' := GetsOut(s, run, e, u);
    }
    EngagedUpdate(e.threads, u, e'.threads[u]);
  }

  /** The other threads can all be brought outside while thread `t` stands still. */
  lemma {:induction false} OthersOut(s: State, run: seq<Step>, e: State, t: nat) returns (run': seq<Step>, e': State)
    requires Leads(s, run, e) && Inv(e) && t < |e.threads|
    ensures Leads(s, run', e') && Inv(e') && e.frames <= e'.frames
    ensures |e'.threads| == |e.threads| && e'.threads[t] == e.threads[t]
    ensures forall u | 0 <= u < |e'.threads| && u != t :: e'.threads[u].Outside?
    decreases Engaged(e.threads)
  {
    hide Leads, Inv;
    if u :| 0 <= u < |e.threads| && u != t && !e.threads[u].Outside? {
      var m;
      run', m := OneOut(s, run, e, u);
      run', e' := OthersOut(s, run', m, t);
    } else {
      run', e' := run, e;
    }
  }

  /** A thread that is alone gets in. */
  lemma GetsIn(s: State, run: seq<Step>, e: State, t: nat)
    requires Leads(s, run, e) && Inv(e) && t < |e.threads|
    requires forall u | 0 <= u < |e.threads| :: e.threads[u].Outside?
    ensures Can(e, Add(t)) && Leads(s, run + [Add(t)], Do(e, Add(t))) && Inv(Do(e, Add(t)))
    ensures Do(e, Add(t)).threads == e.threads[t := Inside(e.threads[t].frame, 0)]
  {
    NoneEngaged(e.threads);
    OneMore(s, run, e, Add(t));
    AddKeeps(e, t);
  }

  lemma TakesBack(s: State, run: seq<Step>, e: State, t: nat)
    requires Leads(s, run, e) && Inv(e) && t < |e.threads| && e.threads[t].Backing?
    ensures Can(e, Retreat(t)) && Leads(s, run + [Retreat(t)], Do(e, Retreat(t))) && Inv(Do(e, Retreat(t)))
    ensures Do(e, Retreat(t)).threads == e.threads[t := Outside(e.threads[t].frame)]
  {
    OneMore(s, run, e, Retreat(t));
    RetreatKeeps(e, t);
  }

  /** Thread `t` gets its frame out, once the others are outside. */
  lemma AloneGetsThrough(s: State, run: seq<Step>, e: State, t: nat) returns (run': seq<Step>, e': State)
    requires Leads(s, run, e) && Inv(e) && t < |e.threads|
    requires forall u | 0 <= u < |e.threads| && u != t :: e.threads[u].Outside?
    ensures Leads(s, run', e') && e'.frames == e.frames + [e.threads[t].frame]
  {
    hide Leads, Inv;
    var m;
    run', m := run, e;
    if m.threads[t].Backing? {
      TakesBack(s, run', m, t);
      run', m := run' + [Retreat(t)], Do(m, Retreat(t));
    }
    if m.threads[t].Outside? {
      GetsIn(s, run', m, t);
      run', m := run' + [Add(t)], Do(m, Add(t));
    }
    run', e' := GetsOut(s, run', m, t);
  }

  /** From every reachable state the frame of any thread can still get out, whatever the other threads
      have begun. */
  lemma EveryFrameGetsOut(first: seq<seq<Byte>>, run: seq<Step>, t: nat) returns (more: seq<Step>)
    requires Legal(Start(first), run) && t < |Exec(Start(first), run).threads|
    ensures var s := Exec(Start(first), run);
            && Legal(s, more) && s.frames < Exec(s, more).frames
            && Exec(s, more).frames[|Exec(s, more).frames| - 1] == s.threads[t].frame
  {
    var s := Exec(Start(first), run);
    RunKeeps(first, run);
    assert Leads(s, [], s);
    hide Inv, Exec, Legal;
    var m, e;
    more, m := OthersOut(s, [], s, t);
    more, e := AloneGetsThrough(s, more, m, t);
  }
}
