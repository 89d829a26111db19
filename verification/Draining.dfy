/** Draining on 16-bit numbers, of either peer's queue, in every run from reset. */
module Draining {
  import opened SeqNum
  import opened PeerSpec
  import opened Queues
  import opened Session
  import opened Refinement
  import opened Handshake
  import opened Delivery
  import opened Guarantees
  import opened Progress

  // ----- No CLOSE is ever queued -----

  lemma {:induction false} RunNoClose(sys: System, steps: seq<Step>)
    requires AllAdmissible(sys, steps) && NoClose(sys.x.sendq) && NoClose(sys.y.sendq)
    ensures var u := RunAll(Unbounded, sys, steps); NoClose(u.x.sendq) && NoClose(u.y.sendq)
    decreases |steps|
  {
    if steps != [] {
      ActNoClose(Unbounded, Actor(sys, steps[0]), Other(sys, steps[0]), steps[0].act);
      RunNoClose(Exec(Unbounded, sys, steps[0]), steps[1..]);
    }
  }

  // ----- Both directions -----

  function Mirror(sys: System): System {
    System(sys.y, sys.x)
  }

  function Flip(steps: seq<Step>): (r: seq<Step>)
    ensures |r| == |steps| && forall i :: 0 <= i < |steps| ==> r[i] == Step(!steps[i].onX, steps[i].act)
  {
    seq(|steps|, i requires 0 <= i < |steps| => Step(!steps[i].onX, steps[i].act))
  }

  lemma {:induction false} MirrorRun(m: Arith, sys: System, steps: seq<Step>)
    ensures RunAll(m, sys, Flip(steps)) == Mirror(RunAll(m, Mirror(sys), steps))
    decreases |steps|
  {
    if steps != [] {
      assert Flip(steps)[1..] == Flip(steps[1..]);
      assert Exec(m, sys, Flip(steps)[0]) == Mirror(Exec(m, Mirror(sys), steps[0]));
      MirrorRun(m, Exec(m, sys, Flip(steps)[0]), steps[1..]);
    }
  }

  /** The system seen from the client's side or from the server's. */
  function View(sys: System, client: bool): System {
    if client then sys else Mirror(sys)
  }

  function Turn(steps: seq<Step>, client: bool): seq<Step> {
    if client then steps else Flip(steps)
  }

  lemma TurnRun(m: Arith, sys: System, client: bool, steps: seq<Step>)
    ensures View(RunAll(m, sys, Turn(steps, client)), client) == RunAll(m, View(sys, client), steps)
  {
    if !client {
      MirrorRun(m, sys, steps);
    }
  }

  // ----- The steps of several exchanges -----

  function ExchangesSteps(sys: System, rds: seq<Round>): seq<Step>
    decreases |rds|
  {
    if rds == [] then [] else ExchangeSteps(sys, rds[0]) + ExchangesSteps(Exchange(sys, rds[0]), rds[1..])
  }

  lemma {:induction false} ExchangesRun(sys: System, rds: seq<Round>)
    ensures RunAll(Unbounded, sys, ExchangesSteps(sys, rds)) == Exchanges(sys, rds)
    decreases |rds|
  {
    if rds != [] {
      RunAppend(Unbounded, sys, ExchangeSteps(sys, rds[0]), ExchangesSteps(Exchange(sys, rds[0]), rds[1..]));
      ExchangesRun(Exchange(sys, rds[0]), rds[1..]);
    }
  }

  lemma {:induction false} ExchangesPrefix(sys: System, rds: seq<Round>, n: nat)
    requires n <= |rds|
    ensures ExchangesSteps(sys, rds[..n]) <= ExchangesSteps(sys, rds)
    decreases n
  {
    if n > 0 {
      assert rds[..n][1..] == rds[1..][..n - 1];
      ExchangesPrefix(Exchange(sys, rds[0]), rds[1..], n - 1);
    }
  }

  lemma {:induction false} AdmissiblePrefix(sys: System, a: seq<Step>, b: seq<Step>)
    requires AllAdmissible(sys, b) && a <= b
    ensures AllAdmissible(sys, a)
    decreases |a|
  {
    if a != [] {
      AdmissiblePrefix(Exec(Unbounded, sys, a[0]), a[1..], b[1..]);
    }
  }

  /** Exchanges with the clock readings rds that start with a service of the client, or of the server. */
  function DrainSteps(u: System, client: bool, rds: seq<Round>): seq<Step> {
    Turn(ExchangesSteps(View(u, client), rds), client)
  }

  // ----- Draining on 16-bit numbers -----

  lemma QueuedProjects(sys: System, client: bool)
    ensures |Rels(View(ProjSystem(sys), client).x.sendq)| == |Rels(View(sys, client).x.sendq)|
  {
    RelsProject(View(sys, client).x.sendq);
  }

  lemma ViewEstablished(u: System, r: int, s: int, client: bool)
    requires InSession(u, r, s) && u.x.state != Connecting
    ensures if client then Established(View(u, client), r, s) else Established(View(u, client), s, r)
  {
  }

  lemma SessionDrains(u: System, r: int, s: int, client: bool, rds: seq<Round>) returns (n: nat)
    requires Usable(r, s) && InSession(u, r, s) && u.x.state != Connecting
    requires NoClose(View(u, client).x.sendq)
    requires |Rels(View(u, client).x.sendq)| <= |rds| && OnTime(View(u, client), rds)
    requires AllAdmissible(u, DrainSteps(u, client, rds))
    ensures n <= |Rels(View(u, client).x.sendq)| && n <= |rds|
    ensures Rels(View(RunAll(Wrapped, ProjSystem(u), DrainSteps(u, client, rds[..n])), client).x.sendq) == []
  {
    var v := View(u, client);
    ViewEstablished(u, r, s, client);
    n := Drains(v, if client then r else s, if client then s else r, rds);
    var steps := DrainSteps(u, client, rds[..n]);
    ExchangesPrefix(v, rds, n);
    AdmissiblePrefix(u, steps, DrainSteps(u, client, rds));
    RunRefines(u, r, s, steps);
    TurnRun(Unbounded, u, client, ExchangesSteps(v, rds[..n]));
    ExchangesRun(v, rds[..n]);
    QueuedProjects(RunAll(Unbounded, u, steps), client);
  }

  lemma OpeningNoClose(r: int, s: int, nowX: int, nowY: int)
    ensures var u := Opening(Unbounded, r, s, nowX, nowY); NoClose(u.x.sendq) && NoClose(u.y.sendq)
  {
  }

  /** After any run from reset that left both peers running, the n reliable packets in the
      queue of either peer are acknowledged by at most n loss-free exchanges, each in time,
      on 16-bit numbers. */
  lemma DrainsFromReset(r: int, s: int, nowX: int, nowY: int, steps: seq<Step>, client: bool, rds: seq<Round>)
    returns (n: nat)
    requires Usable(r, s) && AllAdmissible(Opening(Unbounded, r, s, nowX, nowY), steps)
    requires var u := RunAll(Unbounded, Opening(Unbounded, r, s, nowX, nowY), steps);
             && u.x.state != Connecting
             && |Rels(View(u, client).x.sendq)| <= |rds| && OnTime(View(u, client), rds)
             && AllAdmissible(u, DrainSteps(u, client, rds))
    ensures var u := RunAll(Unbounded, Opening(Unbounded, r, s, nowX, nowY), steps);
            var w := RunAll(Wrapped, Opening(Wrapped, r, s, nowX, nowY), steps);
            && n <= |Rels(View(w, client).x.sendq)| && n <= |rds|
            && Rels(View(RunAll(Wrapped, w, DrainSteps(u, client, rds[..n])), client).x.sendq) == []
  {
    var u := RunFromReset(r, s, nowX, nowY, steps);
    OpeningNoClose(r, s, nowX, nowY);
    RunNoClose(Opening(Unbounded, r, s, nowX, nowY), steps);
    n := SessionDrains(u, r, s, client, rds);
    QueuedProjects(u, client);
  }

  /** Each of those exchanges strictly lowers the number of reliable packets queued. */
  lemma ExchangeProgress16(u: System, r: int, s: int, client: bool, rd: Round)
    requires Usable(r, s) && InSession(u, r, s) && u.x.state != Connecting
    requires var v := View(u, client); Rels(v.x.sendq) != [] && NoClose(v.x.sendq) && Fits(v, rd)
    requires AllAdmissible(u, Turn(ExchangeSteps(View(u, client), rd), client))
    ensures var w := RunAll(Wrapped, ProjSystem(u), Turn(ExchangeSteps(View(u, client), rd), client));
            |Rels(View(w, client).x.sendq)| < |Rels(View(ProjSystem(u), client).x.sendq)|
  {
    var v := View(u, client);
    ViewEstablished(u, r, s, client);
    ExchangeProgress(v, if client then r else s, if client then s else r, rd);
    var steps := Turn(ExchangeSteps(v, rd), client);
    RunRefines(u, r, s, steps);
    TurnRun(Unbounded, u, client, ExchangeSteps(v, rd));
    QueuedProjects(u, client);
    QueuedProjects(RunAll(Unbounded, u, steps), client);
  }
}
