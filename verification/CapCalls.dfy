/** Capability calls as traps see them: each is a run of capability operations that leaves
    processes alone and at most clears channel records. */
module CapCalls {
  import opened Capability
  import opened CapList
  import opened CapOps
  import opened Authority
  import opened Derivations
  import opened Revocation
  import opened Preemption
  import opened Runs
  import opened Process
  import opened Traps

  /** The capability calls of the kernel, on the caller's own table and through a monitor. */
  datatype CapCall =
    | CallMove(src: nat, dst: nat)
    | CallDelete(idx: nat)
    | CallRevoke(idx: nat)
    | CallDerive(src: nat, dst: nat, ncap: Cap)
    | CallLoad(idx: nat, slot: nat)
    | CallUnload(idx: nat)
    | CallMonMove(mon: nat, src: nat, dst: nat)
    | CallMonLoad(mon: nat, idx: nat, slot: nat)
    | CallMonUnload(mon: nat, idx: nat)

  /** Arguments in range, and the premises of the run model. */
  ghost predicate CapCallOk(cfg: Config, boot: seq<Cap>, s: State, c: CapCall) {
    match c
    case CallMove(src, dst) => Admissible(cfg, boot, s, MoveCap(src, dst))
    case CallDelete(idx) => Admissible(cfg, boot, s, DeleteCap(idx))
    case CallRevoke(idx) =>
      idx < TableSize(cfg) && (Pos(s.list, idx) < |s.list| ==> AnchorSafe(s.list, Pos(s.list, idx)))
    case CallDerive(src, dst, ncap) => Admissible(cfg, boot, s, DeriveCap(src, dst, ncap))
    case CallLoad(idx, slot) => Admissible(cfg, boot, s, LoadFrame(idx, slot))
    case CallUnload(idx) => Admissible(cfg, boot, s, UnloadFrame(idx))
    case CallMonMove(mon, src, dst) => mon < TableSize(cfg) && Admissible(cfg, boot, s, MoveCap(src, dst))
    case CallMonLoad(mon, idx, slot) => mon < TableSize(cfg) && Admissible(cfg, boot, s, LoadFrame(idx, slot))
    case CallMonUnload(mon, idx) => mon < TableSize(cfg) && Admissible(cfg, boot, s, UnloadFrame(idx))
  }

  /** What a call may do to the tables, and what it returns. A revocation may be preempted after
      any pass. */
  ghost predicate Effect(cfg: Config, boot: seq<Cap>, m: Machine, c: CapCall, kern: State, err: Err)
    requires Inv(cfg, boot, m.kern) && MachineOk(cfg, m) && CapCallOk(cfg, boot, m.kern, c)
  {
    match c
    case CallMove(src, dst) => (kern, err) == Move(cfg, m.kern, src, dst)
    case CallDelete(idx) => (kern, err) == Delete(cfg, m.kern, idx)
    case CallRevoke(idx) =>
      if Pos(m.kern.list, idx) == |m.kern.list| then kern == m.kern && err == Empty
      else if err == Success then kern == RevokeAll(cfg, boot, m.kern, idx)
      else err == Preempted && exists k: nat :: kern == RevokeSome(cfg, boot, m.kern, idx, k)
    case CallDerive(src, dst, ncap) => (kern, err) == Derive(cfg, m.kern, src, dst, ncap)
    case CallLoad(idx, slot) => (kern, err) == PmpLoad(cfg, m.kern, idx, slot)
    case CallUnload(idx) => (kern, err) == PmpUnload(cfg, m.kern, idx)
    case CallMonMove(mon, src, dst) => (kern, err) == MonitorMove(cfg, m, mon, src, dst)
    case CallMonLoad(mon, idx, slot) => (kern, err) == MonitorLoad(cfg, m, mon, idx, slot)
    case CallMonUnload(mon, idx) => (kern, err) == MonitorUnload(cfg, m, mon, idx)
  }

  /** The result code that the caller finds in its register. */
  function Code(err: Err): Result {
    match err
    case Success => Ok
    case Empty => ErrEmpty
    case SrcEmpty => ErrSrcEmpty
    case DstOccupied => ErrDstOccupied
    case InvalidDerivation => ErrInvalidDerivation
    case InvalidPmp => ErrInvalidPmp
    case InvalidMonitor => ErrInvalidMonitor
    case InvalidState => ErrInvalidState
    case Preempted => ErrPreempted
    case Continue => ErrPreempted
  }

  /** The caller can tell all answers apart, but for the two that mean "call again". */
  lemma CodesDiffer(a: Err, b: Err)
    ensures Code(a) == Code(b) <==> a == b || (a in {Preempted, Continue} && b in {Preempted, Continue})
    ensures Code(a) == Ok <==> a == Success
    ensures Code(a) == ErrPreempted <==> a == Preempted || a == Continue
  {
  }

  // ----- calls are runs -----

  lemma OneOp(cfg: Config, boot: seq<Cap>, s: State, op: Op)
    requires Bounded(cfg, s) && Admissible(cfg, boot, s, op)
    ensures IsRun(cfg, boot, s, [op], Apply(cfg, boot, s, op))
  {
    NoOps(cfg, boot, Apply(cfg, boot, s, op));
    OpThen(cfg, boot, s, op, [], Apply(cfg, boot, s, op));
    assert [op] + [] == [op];
  }

  /** Every capability call, also a revocation of many passes that is cut short, is a run of
      capability operations. */
  lemma CallIsRun(cfg: Config, boot: seq<Cap>, m: Machine, c: CapCall, kern: State, err: Err)
    requires Inv(cfg, boot, m.kern) && MachineOk(cfg, m) && CapCallOk(cfg, boot, m.kern, c)
    requires Effect(cfg, boot, m, c, kern, err)
    ensures exists ops :: IsRun(cfg, boot, m.kern, ops, kern)
  {
    hide Inv, ListInv, ScheduleAgrees, RegistersAgree, BootOk, Bounded, AnchorSafe, AnchorStays, Move, Delete, Derive, PmpLoad, PmpUnload,
         MonitorMoveCheck, MonitorCheck, RevokeAll, RevokeSome, IsRun;
    var s := m.kern;
    NoOps(cfg, boot, s);
    match c
    case CallMove(src, dst) => OneOp(cfg, boot, s, MoveCap(src, dst));
    case CallDelete(idx) => OneOp(cfg, boot, s, DeleteCap(idx));
    case CallRevoke(idx) =>
      if Pos(s.list, idx) < |s.list| {
        RevokeAllIsSome(cfg, boot, s, idx);
        var k: nat :| kern == RevokeSome(cfg, boot, s, idx, k);
        var ops := RevokeSomeIsRun(cfg, boot, s, idx, k);
      }
    case CallDerive(src, dst, ncap) => OneOp(cfg, boot, s, DeriveCap(src, dst, ncap));
    case CallLoad(idx, slot) => OneOp(cfg, boot, s, LoadFrame(idx, slot));
    case CallUnload(idx) => OneOp(cfg, boot, s, UnloadFrame(idx));
    case CallMonMove(mon, src, dst) => OneOp(cfg, boot, s, MoveCap(src, dst));
    case CallMonLoad(mon, idx, slot) => OneOp(cfg, boot, s, LoadFrame(idx, slot));
    case CallMonUnload(mon, idx) => OneOp(cfg, boot, s, UnloadFrame(idx));
  }

  // ----- runs are steps that the trap model allows -----

  lemma ChansCleared(cfg: Config, boot: seq<Cap>, s: State, op: Op)
    requires Bounded(cfg, s) && Admissible(cfg, boot, s, op)
    ensures |Apply(cfg, boot, s, op).chans| == |s.chans|
    ensures forall c: nat :: c < |s.chans| ==> Cleared(s.chans[c], Apply(cfg, boot, s, op).chans[c])
  {
    hide Schedule.Update, Schedule.Erase, Sound, PassList, PassVerdict, UnloadCap;
    match op
    case DeleteCap(idx) =>
      var p := Pos(s.list, idx);
      assert p < |s.list| ==> NodeOk(cfg, s.list[p]);
    case RevokePass(idx) =>
      var p := Pos(s.list, idx);
      assert p < |s.list| ==> NodeOk(cfg, s.list[Next(s.list, p)]);
    case _ =>
  }

  /** Every run of capability operations is a step that the trap model allows: the tables keep
      their shape, and channel records are at most cleared. */
  lemma {:induction false} RunTables(cfg: Config, boot: seq<Cap>, s: State, ops: seq<Op>, t: State)
    requires Inv(cfg, boot, s) && IsRun(cfg, boot, s, ops, t)
    ensures TablesStep(cfg, s, t)
    decreases |ops|
  {
    hide ListInv, ScheduleAgrees, RegistersAgree, BootOk, Admissible, Apply;
    RunKeepsInv(cfg, boot, s, ops, t);
    InvDistinct(cfg, boot, t);
    if ops != [] {
      var m := Apply(cfg, boot, s, ops[0]);
      StepKeepsInv(cfg, boot, s, ops[0]);
      ChansCleared(cfg, boot, s, ops[0]);
      RunTables(cfg, boot, m, ops[1..], t);
    }
  }

  lemma InvDistinct(cfg: Config, boot: seq<Cap>, s: State)
    requires Inv(cfg, boot, s)
    ensures Distinct(s.list)
  {
  }
}
