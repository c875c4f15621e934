/** The ticket semaphore that guards the schedule: readers take one ticket, a writer takes all.
    Any number of harts take the atomic steps in any order. The counters are 64-bit words. */
module Semaphore {
  import opened Arith

  const WORD := 0x1_0000_0000_0000_0000

  datatype Phase = Waiting | Holding | Done

  /** One call of acquire: how many tickets, the counter value it drew, and how far it is. */
  datatype Request = Request(n: nat, ticket: nat, phase: Phase)

  /** The two counters, and all requests in the order of their atomic additions. */
  datatype Sem = Sem(acquired: nat, released: nat, reqs: seq<Request>)

  /** The atomic steps: draw tickets, leave the waiting loop, give the tickets back. */
  datatype Action = Draw(n: nat) | Enter(k: nat) | Leave(k: nat)

  function Init(tickets: nat): Sem {
    Sem(0, tickets, [])
  }

  predicate Enabled(s: Sem, a: Action) {
    match a
    case Draw(n) => true
    case Enter(k) => k < |s.reqs| && s.reqs[k].phase.Waiting? && s.reqs[k].ticket <= s.released
    case Leave(k) => k < |s.reqs| && s.reqs[k].phase.Holding?
  }

  function Act(s: Sem, a: Action): Sem
    requires Enabled(s, a)
  {
    match a
    case Draw(n) =>
      var ticket := (s.acquired + n) % WORD;
      Sem(ticket, s.released, s.reqs + [Request(n, ticket, Waiting)])
    case Enter(k) => s.(reqs := s.reqs[k := s.reqs[k].(phase := Holding)])
    case Leave(k) => s.(released := (s.released + s.reqs[k].n) % WORD, reqs := s.reqs[k := s.reqs[k].(phase := Done)])
  }

  ghost predicate IsRun(s: Sem, acts: seq<Action>, t: Sem)
    decreases |acts|
  {
    if acts == [] then s == t else Enabled(s, acts[0]) && IsRun(Act(s, acts[0]), acts[1..], t)
  }

  /** Tickets drawn in a run. */
  function Drawn(acts: seq<Action>): nat {
    if acts == [] then 0 else (if acts[0].Draw? then acts[0].n else 0) + Drawn(acts[1..])
  }

  /** Every request asks for at least one ticket. */
  predicate Positive(acts: seq<Action>) {
    forall i: nat :: i < |acts| && acts[i].Draw? ==> acts[i].n > 0
  }

  /** Tickets of the first `k` requests that are in one of the given phases. */
  function Total(reqs: seq<Request>, k: nat, waiting: bool, holding: bool, done: bool): nat
    requires k <= |reqs|
  {
    if k == 0 then 0
    else
      var r := reqs[k - 1];
      Total(reqs, k - 1, waiting, holding, done)
      + if (waiting && r.phase.Waiting?) || (holding && r.phase.Holding?) || (done && r.phase.Done?) then r.n else 0
  }

  function All(reqs: seq<Request>, k: nat): nat
    requires k <= |reqs|
  {
    Total(reqs, k, true, true, true)
  }

  function Held(s: Sem): nat {
    Total(s.reqs, |s.reqs|, false, true, false)
  }

  function Returned(s: Sem): nat {
    Total(s.reqs, |s.reqs|, false, false, true)
  }

  /** What holds in every state, for an initial count of `tickets`. */
  ghost predicate Inv(tickets: nat, s: Sem) {
    && s.acquired == All(s.reqs, |s.reqs|)
    && s.released == (tickets + Returned(s)) % WORD
    && (forall k: nat :: k < |s.reqs| ==> TicketOk(tickets, s, k))
  }

  predicate TicketOk(tickets: nat, s: Sem, k: nat)
    requires k < |s.reqs|
  {
    && s.reqs[k].ticket == All(s.reqs, k + 1)
    && (!s.reqs[k].phase.Waiting? ==> s.reqs[k].ticket <= tickets + Returned(s))
  }

  // ----- sums -----

  lemma {:induction false} TotalPrefix(a: seq<Request>, b: seq<Request>, k: nat, w: bool, h: bool, d: bool)
    requires k <= |a| && k <= |b| && forall i: nat :: i < k ==> a[i] == b[i]
    ensures Total(a, k, w, h, d) == Total(b, k, w, h, d)
  {
    if k > 0 { TotalPrefix(a, b, k - 1, w, h, d); }
  }

  /** Changing one request's phase changes a sum by that request alone. */
  lemma {:induction false} TotalUpdate(a: seq<Request>, j: nat, r: Request, k: nat, w: bool, h: bool, d: bool)
    requires j < |a| && k <= |a| && r.n == a[j].n
    ensures var b := a[j := r];
            Total(b, k, w, h, d) == Total(a, k, w, h, d)
              - (if j < k && ((w && a[j].phase.Waiting?) || (h && a[j].phase.Holding?) || (d && a[j].phase.Done?)) then r.n else 0)
              + (if j < k && ((w && r.phase.Waiting?) || (h && r.phase.Holding?) || (d && r.phase.Done?)) then r.n else 0)
  {
    if k > 0 { TotalUpdate(a, j, r, k - 1, w, h, d); }
  }

  lemma {:induction false} TotalGrows(a: seq<Request>, i: nat, k: nat, w: bool, h: bool, d: bool)
    requires i <= k <= |a|
    ensures Total(a, i, w, h, d) <= Total(a, k, w, h, d)
    decreases k
  {
    if i < k { TotalGrows(a, i, k - 1, w, h, d); }
  }

  /** Held and returned tickets together are at most all tickets up to the last such request. */
  lemma {:induction false} GrantedBound(a: seq<Request>, k: nat, bound: nat)
    requires k <= |a|
    requires forall i: nat :: i < k && !a[i].phase.Waiting? ==> All(a, i + 1) <= bound
    ensures Total(a, k, false, true, false) + Total(a, k, false, false, true) <= All(a, k)
    ensures var granted := Total(a, k, false, true, false) + Total(a, k, false, false, true);
            granted == 0 || granted <= bound
  {
    if k > 0 {
      GrantedBound(a, k - 1, bound);
    }
  }

  // ----- safety -----

  lemma ActKeepsInv(tickets: nat, s: Sem, a: Action)
    requires Inv(tickets, s) && Enabled(s, a)
    requires s.acquired + (if a.Draw? then a.n else 0) < WORD
    ensures Inv(tickets, Act(s, a))
    ensures Act(s, a).acquired == s.acquired + if a.Draw? then a.n else 0
  {
    var t := Act(s, a);
    match a
    case Draw(n) =>
      forall w, h, d ensures Total(t.reqs, |s.reqs|, w, h, d) == Total(s.reqs, |s.reqs|, w, h, d) {
        TotalPrefix(s.reqs, t.reqs, |s.reqs|, w, h, d);
      }
      forall k: nat | k < |t.reqs| ensures TicketOk(tickets, t, k) {
        if k < |s.reqs| {
          assert TicketOk(tickets, s, k);
          TotalPrefix(s.reqs, t.reqs, k + 1, true, true, true);
        }
      }
    case Enter(j) =>
      ModLess(tickets + Returned(s));
      PhaseKeepsInv(tickets, s, j, Holding, t);
    case Leave(j) =>
      AddMod(tickets + Returned(s), s.reqs[j].n);
      PhaseKeepsInv(tickets, s, j, Done, t);
  }

  lemma ModLess(a: nat)
    ensures a % WORD <= a && a % WORD < WORD
    ensures a < WORD ==> a % WORD == a
  {
    DivMod(a, WORD);
    if a < WORD { DivUnique(a, WORD, 0, a); }
  }

  lemma AddMod(a: nat, b: nat)
    ensures (a % WORD + b) % WORD == (a + b) % WORD
  {
    var r := a % WORD + b;
    DivMod(a, WORD);
    DivMod(r, WORD);
    DivUnique(a + b, WORD, a / WORD + r / WORD, r % WORD);
  }

  lemma PhaseKeepsInv(tickets: nat, s: Sem, j: nat, ph: Phase, t: Sem)
    requires Inv(tickets, s) && j < |s.reqs|
    requires t.reqs == s.reqs[j := s.reqs[j].(phase := ph)] && t.acquired == s.acquired
    requires (ph.Holding? && s.reqs[j].phase.Waiting? && s.reqs[j].ticket <= tickets + Returned(s) && t.released == s.released)
          || (ph.Done? && s.reqs[j].phase.Holding? && t.released == (tickets + Returned(s) + s.reqs[j].n) % WORD)
    ensures Inv(tickets, t)
  {
    var r := s.reqs[j].(phase := ph);
    TotalUpdate(s.reqs, j, r, |s.reqs|, false, false, true);
    TotalUpdate(s.reqs, j, r, |s.reqs|, true, true, true);
    forall k: nat | k < |t.reqs| ensures TicketOk(tickets, t, k) {
      assert TicketOk(tickets, s, k) && TicketOk(tickets, s, j);
      TotalUpdate(s.reqs, j, r, k + 1, true, true, true);
    }
  }

  lemma {:induction false} RunKeepsInv(tickets: nat, s: Sem, acts: seq<Action>, t: Sem)
    requires Inv(tickets, s) && IsRun(s, acts, t) && s.acquired + Drawn(acts) < WORD
    ensures Inv(tickets, t)
    decreases |acts|
  {
    if acts != [] {
      ActKeepsInv(tickets, s, acts[0]);
      RunKeepsInv(tickets, Act(s, acts[0]), acts[1..], t);
    }
  }

  /** Over every interleaving, the tickets held never exceed the initial count. */
  lemma HeldBounded(tickets: nat, acts: seq<Action>, s: Sem)
    requires IsRun(Init(tickets), acts, s) && tickets < WORD && Drawn(acts) < WORD
    ensures Inv(tickets, s)
    ensures Held(s) <= tickets
  {
    ModLess(tickets);
    assert Inv(tickets, Init(tickets));
    RunKeepsInv(tickets, Init(tickets), acts, s);
    forall i: nat | i < |s.reqs| && !s.reqs[i].phase.Waiting? ensures All(s.reqs, i + 1) <= tickets + Returned(s) {
      assert TicketOk(tickets, s, i);
    }
    GrantedBound(s.reqs, |s.reqs|, tickets + Returned(s));
  }

  /** A writer that holds every ticket excludes all other holders. */
  lemma WriterExcludes(tickets: nat, acts: seq<Action>, s: Sem, i: nat, j: nat)
    requires IsRun(Init(tickets), acts, s) && tickets < WORD && Drawn(acts) < WORD
    requires i < |s.reqs| && j < |s.reqs| && i != j
    requires s.reqs[i].phase.Holding? && s.reqs[i].n == tickets && s.reqs[j].n > 0
    ensures !s.reqs[j].phase.Holding?
  {
    HeldBounded(tickets, acts, s);
    TwoHolders(s.reqs, |s.reqs|, i, j);
  }

  lemma {:induction false} TwoHolders(a: seq<Request>, k: nat, i: nat, j: nat)
    requires k <= |a| && i < k && j < k && i != j
    ensures a[i].phase.Holding? ==> a[i].n <= Total(a, k, false, true, false)
    ensures a[i].phase.Holding? && a[j].phase.Holding? ==> a[i].n + a[j].n <= Total(a, k, false, true, false)
  {
    OneHolder(a, k - 1, i);
    OneHolder(a, k - 1, j);
    if i < k - 1 && j < k - 1 { TwoHolders(a, k - 1, i, j); }
  }

  lemma {:induction false} OneHolder(a: seq<Request>, k: nat, i: nat)
    requires k <= |a|
    ensures i < k && a[i].phase.Holding? ==> a[i].n <= Total(a, k, false, true, false)
  {
    if k > 0 { OneHolder(a, k - 1, i); }
  }

  // ----- order and progress -----

  /** Tickets become eligible in request order. */
  lemma FirstComeFirstServed(tickets: nat, acts: seq<Action>, s: Sem, i: nat, j: nat)
    requires IsRun(Init(tickets), acts, s) && tickets < WORD && Drawn(acts) < WORD && i < j < |s.reqs|
    requires s.reqs[j].ticket <= s.released
    ensures s.reqs[i].ticket <= s.released
  {
    HeldBounded(tickets, acts, s);
    assert TicketOk(tickets, s, i) && TicketOk(tickets, s, j);
    TotalGrows(s.reqs, i + 1, j + 1, true, true, true);
  }

  /** When nobody holds tickets, the oldest waiter of at most the initial count may enter. */
  lemma OldestMayEnter(tickets: nat, acts: seq<Action>, s: Sem, k: nat)
    requires IsRun(Init(tickets), acts, s) && Positive(acts) && tickets + Drawn(acts) <= WORD && k < |s.reqs|
    requires s.reqs[k].phase.Waiting? && s.reqs[k].n <= tickets
    requires forall i: nat :: i < |s.reqs| ==> !s.reqs[i].phase.Holding?
    requires forall i: nat :: i < k ==> !s.reqs[i].phase.Waiting?
    ensures Enabled(s, Enter(k))
  {
    PositiveRun(Init(tickets), acts, s);
    DrawnAll(tickets, acts, s);
    WaiterApart(s.reqs, |s.reqs|, k);
    HeldBounded(tickets, acts, s);
    assert TicketOk(tickets, s, k);
    AllReturned(s.reqs, k);
    TotalGrows(s.reqs, k, |s.reqs|, false, false, true);
    ModLess(tickets + Returned(s));
  }

  lemma {:induction false} PositiveRun(s: Sem, acts: seq<Action>, t: Sem)
    requires IsRun(s, acts, t) && Positive(acts)
    requires forall i: nat :: i < |s.reqs| ==> s.reqs[i].n > 0
    ensures forall i: nat :: i < |t.reqs| ==> t.reqs[i].n > 0
    decreases |acts|
  {
    if acts != [] {
      assert forall i: nat :: i < |acts| - 1 ==> acts[1..][i] == acts[i + 1];
      assert acts[0].Draw? ==> acts[0].n > 0;
      PositiveRun(Act(s, acts[0]), acts[1..], t);
    }
  }

  /** What was drawn in a run is what its requests asked for, whether or not a counter wrapped. */
  lemma DrawnAll(tickets: nat, acts: seq<Action>, s: Sem)
    requires IsRun(Init(tickets), acts, s)
    ensures All(s.reqs, |s.reqs|) == Drawn(acts)
  {
    DrawnMore(Init(tickets), acts, s);
  }

  lemma ActDraws(s: Sem, a: Action)
    requires Enabled(s, a)
    ensures var t := Act(s, a); All(t.reqs, |t.reqs|) == All(s.reqs, |s.reqs|) + if a.Draw? then a.n else 0
  {
    var t := Act(s, a);
    if a.Draw? {
      TotalPrefix(s.reqs, t.reqs, |s.reqs|, true, true, true);
    } else {
      TotalUpdate(s.reqs, a.k, t.reqs[a.k], |s.reqs|, true, true, true);
    }
  }

  lemma {:induction false} DrawnMore(s: Sem, acts: seq<Action>, t: Sem)
    requires IsRun(s, acts, t)
    ensures All(t.reqs, |t.reqs|) == All(s.reqs, |s.reqs|) + Drawn(acts)
    decreases |acts|
  {
    if acts != [] {
      ActDraws(s, acts[0]);
      DrawnMore(Act(s, acts[0]), acts[1..], t);
    }
  }

  lemma {:induction false} WaiterApart(a: seq<Request>, k: nat, i: nat)
    requires i < k <= |a| && a[i].phase.Waiting?
    ensures a[i].n + Total(a, k, false, false, true) <= All(a, k)
  {
    if i < k - 1 { WaiterApart(a, k - 1, i); } else { GrantedBoundAll(a, k - 1); }
  }

  lemma {:induction false} GrantedBoundAll(a: seq<Request>, k: nat)
    requires k <= |a|
    ensures Total(a, k, false, false, true) <= All(a, k)
  {
    if k > 0 { GrantedBoundAll(a, k - 1); }
  }

  lemma {:induction false} AllReturned(a: seq<Request>, k: nat)
    requires k <= |a| && forall i: nat :: i < k ==> a[i].phase.Done?
    ensures All(a, k) == Total(a, k, false, false, true)
  {
    if k > 0 { AllReturned(a, k - 1); }
  }
}
