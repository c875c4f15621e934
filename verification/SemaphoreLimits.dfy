/** How far the semaphore's promises reach: for each of them, exactly how many tickets may be
    drawn before the 64-bit counters break it. */
module SemaphoreLimits {
  import opened Arith
  import opened Semaphore

  /** The kernel's requests: readers ask for one ticket, writers for all. */
  predicate KernelDraws(tickets: nat, acts: seq<Action>) {
    forall i: nat :: i < |acts| && acts[i].Draw? ==> acts[i].n == 1 || acts[i].n == tickets
  }

  /** A run from the start that draws at most `limit` tickets; only the kernel's requests if
      `kernel` is set. */
  ghost predicate Within(tickets: nat, limit: nat, kernel: bool, acts: seq<Action>, s: Sem) {
    IsRun(Init(tickets), acts, s) && Drawn(acts) <= limit && (kernel ==> KernelDraws(tickets, acts))
  }

  // ----- the promises -----

  /** The tickets held never exceed the initial count. */
  ghost predicate Bound(tickets: nat, limit: nat, kernel: bool) {
    forall acts, s :: Within(tickets, limit, kernel, acts, s) ==> Held(s) <= tickets
  }

  /** Nobody holds tickets beside a writer. */
  predicate Alone(tickets: nat, s: Sem, i: nat, j: nat) {
    i < |s.reqs| && j < |s.reqs| && i != j && s.reqs[i].phase.Holding? && s.reqs[i].n == tickets && s.reqs[j].n > 0 ==>
      !s.reqs[j].phase.Holding?
  }

  ghost predicate Exclusion(tickets: nat, limit: nat, kernel: bool) {
    forall acts, s, i: nat, j: nat :: Within(tickets, limit, kernel, acts, s) ==> Alone(tickets, s, i, j)
  }

  /** Of two requests the earlier one is eligible if the later one is. */
  predicate InOrder(s: Sem, i: nat, j: nat) {
    i < j < |s.reqs| && s.reqs[j].ticket <= s.released ==> s.reqs[i].ticket <= s.released
  }

  ghost predicate Order(tickets: nat, limit: nat, kernel: bool) {
    forall acts, s, i: nat, j: nat :: Within(tickets, limit, kernel, acts, s) ==> InOrder(s, i, j)
  }

  /** `k` is the oldest waiter, its request can be met, and nobody holds tickets. */
  ghost predicate Next(tickets: nat, s: Sem, k: nat) {
    && k < |s.reqs| && s.reqs[k].phase.Waiting? && s.reqs[k].n <= tickets
    && (forall i: nat :: i < |s.reqs| ==> !s.reqs[i].phase.Holding?)
    && (forall i: nat :: i < k ==> !s.reqs[i].phase.Waiting?)
  }

  /** The oldest waiter may enter once nobody holds tickets. */
  ghost predicate Progress(tickets: nat, limit: nat, kernel: bool) {
    forall acts, s, k: nat :: Within(tickets, limit, kernel, acts, s) && Positive(acts) && Next(tickets, s, k) ==> Enabled(s, Enter(k))
  }

  // ----- runs -----

  lemma {:induction false} RunThen(s: Sem, acts: seq<Action>, t: Sem, a: Action)
    requires IsRun(s, acts, t) && Enabled(t, a)
    ensures IsRun(s, acts + [a], Act(t, a))
    ensures Drawn(acts + [a]) == Drawn(acts) + if a.Draw? then a.n else 0
    decreases |acts|
  {
    if acts == [] {
      assert [a][1..] == [];
      assert [] + [a] == [a];
      assert IsRun(Act(s, a), [], Act(s, a));
      assert Drawn([a]) == (if a.Draw? then a.n else 0) + Drawn([]);
    } else {
      RunThen(Act(s, acts[0]), acts[1..], t, a);
      assert (acts + [a])[1..] == acts[1..] + [a];
    }
  }

  /** A run of the kernel's requests that leads to `s` and draws `drawn` tickets. */
  ghost predicate Reaches(tickets: nat, acts: seq<Action>, s: Sem, drawn: nat) {
    IsRun(Init(tickets), acts, s) && Drawn(acts) == drawn && KernelDraws(tickets, acts) && Positive(acts)
  }

  lemma Step(tickets: nat, acts: seq<Action>, s: Sem, drawn: nat, a: Action) returns (acts': seq<Action>)
    requires Reaches(tickets, acts, s, drawn) && Enabled(s, a)
    requires a.Draw? ==> a.n > 0 && (a.n == 1 || a.n == tickets)
    ensures Reaches(tickets, acts', Act(s, a), drawn + if a.Draw? then a.n else 0)
  {
    acts' := acts + [a];
    RunThen(Init(tickets), acts, s, a);
    hide IsRun, Drawn, Act, Enabled;
  }

  /** After `k` readers came and went, one after the other. */
  function Turned(tickets: nat, k: nat): Sem {
    Sem(k, (tickets + k) % WORD, seq(k, i requires 0 <= i < k => Request(1, i + 1, Done)))
  }

  lemma {:induction false} Turns(tickets: nat, k: nat) returns (acts: seq<Action>)
    requires 0 < tickets && tickets + k <= WORD && k < WORD
    requires tickets < WORD
    ensures Reaches(tickets, acts, Turned(tickets, k), k)
  {
    if k == 0 {
      acts := [];
      ModLess(tickets);
    } else {
      acts := Turns(tickets, k - 1);
      var s := Turned(tickets, k - 1);
      ModLess(tickets + k - 1);
      ModLess(k);
      AddMod(tickets + k - 1, 1);
      hide Reaches;
      acts := Step(tickets, acts, s, k - 1, Draw(1));
      s := Act(s, Draw(1));
      acts := Step(tickets, acts, s, k, Enter(k - 1));
      s := Act(s, Enter(k - 1));
      acts := Step(tickets, acts, s, k, Leave(k - 1));
      assert Act(s, Leave(k - 1)).reqs == Turned(tickets, k).reqs;
    }
  }

  // ----- runs that fail -----

  /** A writer holds every ticket, and a reader enters beside it. */
  lemma BoundFails(tickets: nat) returns (acts: seq<Action>, s: Sem)
    requires 0 < tickets < WORD
    ensures Reaches(tickets, acts, s, WORD)
    ensures var k := WORD - tickets - 1;
            && |s.reqs| == k + 2 && s.reqs[k] == Request(tickets, WORD - 1, Holding) && s.reqs[k + 1] == Request(1, 0, Holding)
            && Held(s) > tickets && !Alone(tickets, s, k, k + 1)
  {
    var k := WORD - tickets - 1;
    acts := Turns(tickets, k);
    s := Turned(tickets, k);
    ModLess(tickets + k);
    DivUnique(WORD, WORD, 1, 0);
    hide Reaches;
    acts := Step(tickets, acts, s, k, Draw(tickets));
    s := Act(s, Draw(tickets));
    acts := Step(tickets, acts, s, WORD - 1, Enter(k));
    s := Act(s, Enter(k));
    acts := Step(tickets, acts, s, WORD - 1, Draw(1));
    s := Act(s, Draw(1));
    acts := Step(tickets, acts, s, WORD, Enter(k + 1));
    s := Act(s, Enter(k + 1));
    TwoHolders(s.reqs, |s.reqs|, k, k + 1);
  }

  /** A reader behind a writer waits, and one that comes after it may enter. */
  lemma OrderFails(tickets: nat) returns (acts: seq<Action>, s: Sem, i: nat)
    requires 0 < tickets < WORD
    ensures Reaches(tickets, acts, s, WORD) && !InOrder(s, i, i + 1)
  {
    if tickets == WORD - 1 {
      acts, s := OnlyTwo();
      i := 0;
    } else {
      acts, s := Overtakes(tickets);
      i := WORD - tickets - 1;
    }
  }

  /** With an initial count of 2^64 - 1, a writer's own ticket falls behind the next reader's. */
  lemma OnlyTwo() returns (acts: seq<Action>, s: Sem)
    ensures Reaches(WORD - 1, acts, s, WORD) && !InOrder(s, 0, 1)
  {
    var tickets := WORD - 1;
    acts := Turns(tickets, 0);
    s := Turned(tickets, 0);
    ModLess(WORD - 1);
    DivUnique(WORD, WORD, 1, 0);
    DivUnique(WORD - 1 + WORD - 1, WORD, 1, WORD - 2);
    hide Reaches;
    acts := Step(tickets, acts, s, 0, Draw(tickets));
    s := Act(s, Draw(tickets));
    acts := Step(tickets, acts, s, tickets, Enter(0));
    s := Act(s, Enter(0));
    acts := Step(tickets, acts, s, tickets, Draw(1));
    s := Act(s, Draw(1));
    acts := Step(tickets, acts, s, WORD, Leave(0));
    s := Act(s, Leave(0));
  }

  lemma Overtakes(tickets: nat) returns (acts: seq<Action>, s: Sem)
    requires 0 < tickets < WORD - 1
    ensures Reaches(tickets, acts, s, WORD)
    ensures !InOrder(s, WORD - tickets - 1, WORD - tickets)
  {
    var k := WORD - tickets - 2;
    acts := Turns(tickets, k);
    s := Turned(tickets, k);
    ModLess(tickets + k);
    ModLess(WORD - 1);
    DivUnique(WORD, WORD, 1, 0);
    hide Reaches;
    acts := Step(tickets, acts, s, k, Draw(tickets));
    s := Act(s, Draw(tickets));
    acts := Step(tickets, acts, s, WORD - 2, Enter(k));
    s := Act(s, Enter(k));
    acts := Step(tickets, acts, s, WORD - 2, Draw(1));
    s := Act(s, Draw(1));
    acts := Step(tickets, acts, s, WORD - 1, Draw(1));
    s := Act(s, Draw(1));
  }

  /** A reader waits though nobody holds a ticket and nobody was there before it: readers alone,
      one after the other, bring the counters there. */
  lemma ProgressFails(tickets: nat) returns (acts: seq<Action>, s: Sem, k: nat)
    requires 0 < tickets < WORD
    ensures Reaches(tickets, acts, s, WORD - tickets + 1)
    ensures Next(tickets, s, k) && !Enabled(s, Enter(k))
  {
    if tickets == 1 {
      acts, s := LastTicket();
      k := WORD - 2;
    } else {
      k := WORD - tickets;
      acts := Turns(tickets, k);
      s := Turned(tickets, k);
      DivUnique(WORD, WORD, 1, 0);
      ModLess(k + 1);
      hide Reaches;
      acts := Step(tickets, acts, s, k, Draw(1));
      s := Act(s, Draw(1));
    }
  }

  /** With a single ticket: the request behind the last but one ticket is overtaken. */
  lemma LastTicket() returns (acts: seq<Action>, s: Sem)
    ensures Reaches(1, acts, s, WORD)
    ensures Next(1, s, WORD - 2) && !Enabled(s, Enter(WORD - 2))
  {
    var k := WORD - 3;
    acts := Turns(1, k);
    s := Turned(1, k);
    ModLess(WORD - 2);
    ModLess(WORD - 1);
    DivUnique(WORD, WORD, 1, 0);
    hide Reaches;
    acts := Step(1, acts, s, k, Draw(1));
    s := Act(s, Draw(1));
    acts := Step(1, acts, s, k + 1, Enter(k));
    s := Act(s, Enter(k));
    acts := Step(1, acts, s, k + 1, Draw(1));
    s := Act(s, Draw(1));
    acts := Step(1, acts, s, k + 2, Draw(1));
    s := Act(s, Draw(1));
    acts := Step(1, acts, s, k + 3, Enter(k + 2));
    s := Act(s, Enter(k + 2));
    acts := Step(1, acts, s, k + 3, Leave(k + 2));
    s := Act(s, Leave(k + 2));
    acts := Step(1, acts, s, k + 3, Leave(k));
    s := Act(s, Leave(k));
  }

  // ----- the limits -----

  /** The tickets held stay within the initial count, and a writer is alone, over all runs that draw
      at most `limit` tickets, if and only if that is less than 2^64. The kernel's own requests
      are enough to break both. */
  lemma BoundLimit(tickets: nat, limit: nat, kernel: bool)
    requires 0 < tickets < WORD
    ensures Bound(tickets, limit, kernel) <==> limit < WORD
    ensures Exclusion(tickets, limit, kernel) <==> limit < WORD
  {
    hide IsRun, Drawn, Held;
    if limit < WORD {
      forall acts, s | Within(tickets, limit, kernel, acts, s) ensures Held(s) <= tickets {
        HeldBounded(tickets, acts, s);
      }
      forall acts, s, i: nat, j: nat | Within(tickets, limit, kernel, acts, s) ensures Alone(tickets, s, i, j) {
        if !Alone(tickets, s, i, j) { WriterExcludes(tickets, acts, s, i, j); }
      }
    } else {
      var acts, s := BoundFails(tickets);
      assert Within(tickets, limit, kernel, acts, s);
    }
  }

  /** Tickets become eligible in request order over all such runs if and only if the limit is less
      than 2^64. */
  lemma OrderLimit(tickets: nat, limit: nat, kernel: bool)
    requires 0 < tickets < WORD
    ensures Order(tickets, limit, kernel) <==> limit < WORD
  {
    hide IsRun, Drawn;
    if limit < WORD {
      forall acts, s, i: nat, j: nat | Within(tickets, limit, kernel, acts, s) ensures InOrder(s, i, j) {
        if i < j < |s.reqs| && s.reqs[j].ticket <= s.released { FirstComeFirstServed(tickets, acts, s, i, j); }
      }
    } else {
      var acts, s, i := OrderFails(tickets);
      assert Within(tickets, limit, kernel, acts, s);
    }
  }

  /** The oldest waiter may enter once nobody holds tickets, over all such runs of positive requests,
      if and only if the limit and the initial count together are at most 2^64. */
  lemma ProgressLimit(tickets: nat, limit: nat, kernel: bool)
    requires 0 < tickets < WORD
    ensures Progress(tickets, limit, kernel) <==> tickets + limit <= WORD
  {
    hide IsRun, Drawn, Positive;
    if tickets + limit <= WORD {
      forall acts, s, k: nat | Within(tickets, limit, kernel, acts, s) && Positive(acts) && Next(tickets, s, k)
        ensures Enabled(s, Enter(k))
      {
        OldestMayEnter(tickets, acts, s, k);
      }
    } else {
      var acts, s, k := ProgressFails(tickets);
      assert Within(tickets, limit, kernel, acts, s);
    }
  }
}
