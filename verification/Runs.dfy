/** Whole runs: from boot, through any sequence of capability operations. */
module Runs {
  import opened Arith
  import opened Capability
  import opened CapList
  import opened Schedule
  import opened CapOps
  import opened Authority
  import opened ListSteps
  import opened Steps
  import opened Derivations
  import opened Revocation
  import opened Preemption
  import opened CapTable

  /** One kernel step. `RevokePass` is a single pass of the revocation loop, so a run may
      stop a revocation anywhere and do something else in between. */
  datatype Op =
    | MoveCap(src: nat, dst: nat)
    | DeleteCap(idx: nat)
    | RevokePass(idx: nat)
    | DeriveCap(src: nat, dst: nat, ncap: Cap)
    | LoadFrame(idx: nat, slot: nat)
    | UnloadFrame(idx: nat)

  /** What the system-call layer checks before it calls in, and the premises of the model: the
      boot frame is never removed, by a deletion or by a revocation over the end of the list, and
      an entry is not moved while it is alone on the cycle. */
  ghost predicate Admissible(cfg: Config, boot: seq<Cap>, s: State, op: Op) {
    match op
    case MoveCap(src, dst) => src < TableSize(cfg) && dst < TableSize(cfg) && |s.list| >= 2
    case DeleteCap(idx) =>
      idx < TableSize(cfg) && (Pos(s.list, idx) < |s.list| ==> Pos(s.list, idx) != 0)
    case RevokePass(idx) =>
      idx < TableSize(cfg) && (Pos(s.list, idx) < |s.list| ==> AnchorStays(s.list, Pos(s.list, idx)))
    case DeriveCap(src, dst, ncap) => src < TableSize(cfg) && dst < TableSize(cfg) && CapIsValid(ncap)
    case LoadFrame(idx, slot) => idx < TableSize(cfg) && slot < cfg.pmpCnt
    case UnloadFrame(idx) => idx < TableSize(cfg)
  }

  ghost function Apply(cfg: Config, boot: seq<Cap>, s: State, op: Op): State
    requires Bounded(cfg, s) && Admissible(cfg, boot, s, op)
  {
    match op
    case MoveCap(src, dst) => Move(cfg, s, src, dst).0
    case DeleteCap(idx) => Delete(cfg, s, idx).0
    case RevokePass(idx) =>
      var p := Pos(s.list, idx);
      if p < |s.list| then RevokeStepAt(cfg, s, p).0 else s
    case DeriveCap(src, dst, ncap) => Derive(cfg, s, src, dst, ncap).0
    case LoadFrame(idx, slot) => PmpLoad(cfg, s, idx, slot).0
    case UnloadFrame(idx) => PmpUnload(cfg, s, idx).0
  }

  lemma StepKeepsInv(cfg: Config, boot: seq<Cap>, s: State, op: Op)
    requires Inv(cfg, boot, s) && Admissible(cfg, boot, s, op)
    ensures Inv(cfg, boot, Apply(cfg, boot, s, op))
  {
    hide Bounded, ListInv, ScheduleAgrees, RegistersAgree, BootOk, MoveAt, DeleteAt, DeriveAt, RevokeStepAt,
         PmpLoad, PmpUnload, AnchorStays;
    match op
    case MoveCap(src, dst) =>
      var p := Pos(s.list, src);
      if p < |s.list| && Pos(s.list, dst) == |s.list| { MoveKeepsInv(cfg, boot, s, p, dst); }
    case DeleteCap(idx) =>
      var p := Pos(s.list, idx);
      if p < |s.list| { DeleteKeepsInv(cfg, boot, s, p); }
    case RevokePass(idx) =>
      var p := Pos(s.list, idx);
      if p < |s.list| { RevokeStepKeepsInv(cfg, boot, s, p); }
    case DeriveCap(src, dst, ncap) =>
      var p := Pos(s.list, src);
      if p < |s.list| && Pos(s.list, dst) == |s.list| { DeriveKeepsInv(cfg, boot, s, p, dst, ncap); }
    case LoadFrame(idx, slot) => LoadKeepsInv(cfg, boot, s, idx, slot);
    case UnloadFrame(idx) => UnloadKeepsInv(cfg, boot, s, idx);
  }

  /** The operation does not delete the head of a memory family. */
  ghost predicate KeepsHeads(boot: seq<Cap>, s: State, op: Op) {
    op.DeleteCap? && Pos(s.list, op.idx) < |s.list| ==> !MemoryHead(boot, s.list, Pos(s.list, op.idx))
  }

  /** Only deleting a head loses one, and as long as they are there, revocation never touches
      the boot frame. */
  lemma StepKeepsRoots(cfg: Config, boot: seq<Cap>, s: State, op: Op)
    requires Inv(cfg, boot, s) && MemoryRoots(boot, s.list) && KeepsHeads(boot, s, op)
    requires op.RevokePass? || Admissible(cfg, boot, s, op)
    requires op.RevokePass? ==> op.idx < TableSize(cfg)
    ensures Admissible(cfg, boot, s, op) && MemoryRoots(boot, Apply(cfg, boot, s, op).list)
  {
    hide MemoryRoots, MemoryHead, AnchorStays, ScheduleAgrees, RegistersAgree, PmpLoad, PmpUnload, DeriveAt, RevokeStepAt, CanDerive,
         SameAuthority, CapOk, Update;
    var l := s.list;
    SameAsSelf(l);
    match op
    case MoveCap(src, dst) =>
      var p := Pos(l, src);
      if p < |l| && Pos(l, dst) == |l| { MoveKeepsRoots(cfg, boot, s, p, dst); }
    case DeleteCap(idx) =>
      var p := Pos(l, idx);
      if p < |l| { RemoveKeepsRoots(boot, l, p); }
    case RevokePass(idx) =>
      var p := Pos(l, idx);
      if p < |l| { RevokeStepKeepsRoots(cfg, boot, s, p); }
    case DeriveCap(src, dst, ncap) =>
      var p := Pos(l, src);
      if p < |l| && Pos(l, dst) == |l| { DeriveKeepsRoots(cfg, boot, s, p, dst, ncap); }
    case LoadFrame(idx, slot) => LoadKeepsRoots(cfg, boot, s, idx, slot);
    case UnloadFrame(idx) => UnloadKeepsRoots(cfg, boot, s, idx);
  }

  lemma LoadKeepsRoots(cfg: Config, boot: seq<Cap>, s: State, idx: nat, slot: nat)
    requires Bounded(cfg, s) && MemoryRoots(boot, s.list) && idx < TableSize(cfg) && slot < cfg.pmpCnt
    ensures MemoryRoots(boot, PmpLoad(cfg, s, idx, slot).0.list)
  {
    hide MemoryRoots, CapOk;
    var p := Pos(s.list, idx);
    if p < |s.list| && s.list[p].cap.Pmp? { BindKeepsRoots(boot, s.list, p, true, slot); }
  }

  lemma UnloadKeepsRoots(cfg: Config, boot: seq<Cap>, s: State, idx: nat)
    requires Bounded(cfg, s) && MemoryRoots(boot, s.list) && idx < TableSize(cfg)
    ensures MemoryRoots(boot, PmpUnload(cfg, s, idx).0.list)
  {
    hide MemoryRoots;
    var p := Pos(s.list, idx);
    if p < |s.list| && s.list[p].cap.Pmp? { BindKeepsRoots(boot, s.list, p, false, 0); }
  }

  lemma BindKeepsRoots(boot: seq<Cap>, l: List, p: nat, used: bool, slot: nat)
    requires MemoryRoots(boot, l) && p < |l| && l[p].cap.Pmp?
    ensures MemoryRoots(boot, SetCap(l, p, Bind(l[p].cap, used, slot)))
  {
    SameAsSelf(l);
    EditKeepsRoots(boot, l, SetCap(l, p, Bind(l[p].cap, used, slot)));
  }

  lemma MoveKeepsRoots(cfg: Config, boot: seq<Cap>, s: State, p: nat, dst: nat)
    requires Bounded(cfg, s) && MemoryRoots(boot, s.list) && p < |s.list| && dst < TableSize(cfg)
    ensures MemoryRoots(boot, MoveAt(cfg, s, p, dst).list)
  {
    hide MemoryRoots, Update, CapOk;
    SameAsSelf(s.list);
    EditKeepsRoots(boot, s.list, MoveAt(cfg, s, p, dst).list);
  }

  /** A run from `s` to `t`: each of the operations is admissible where it is applied. */
  ghost predicate IsRun(cfg: Config, boot: seq<Cap>, s: State, ops: seq<Op>, t: State)
    decreases |ops|
  {
    if ops == [] then s == t
    else
      && Bounded(cfg, s) && Admissible(cfg, boot, s, ops[0])
      && IsRun(cfg, boot, Apply(cfg, boot, s, ops[0]), ops[1..], t)
  }

  /** The invariant holds in every state that any run reaches. */
  lemma {:induction false} RunKeepsInv(cfg: Config, boot: seq<Cap>, s: State, ops: seq<Op>, t: State)
    requires Inv(cfg, boot, s) && IsRun(cfg, boot, s, ops, t)
    ensures Inv(cfg, boot, t)
    decreases |ops|
  {
    if ops != [] {
      StepKeepsInv(cfg, boot, s, ops[0]);
      RunKeepsInv(cfg, boot, Apply(cfg, boot, s, ops[0]), ops[1..], t);
    }
  }

  /** No operation of the run deletes the head of a memory family. */
  ghost predicate HeadsKept(cfg: Config, boot: seq<Cap>, s: State, ops: seq<Op>)
    decreases |ops|
  {
    ops != [] ==>
      && Bounded(cfg, s) && Admissible(cfg, boot, s, ops[0]) && KeepsHeads(boot, s, ops[0])
      && HeadsKept(cfg, boot, Apply(cfg, boot, s, ops[0]), ops[1..])
  }

  /** Over such a run the heads stay, whatever is revoked on the way. */
  lemma {:induction false} RunKeepsRoots(cfg: Config, boot: seq<Cap>, s: State, ops: seq<Op>, t: State)
    requires Inv(cfg, boot, s) && MemoryRoots(boot, s.list)
    requires IsRun(cfg, boot, s, ops, t) && HeadsKept(cfg, boot, s, ops)
    ensures MemoryRoots(boot, t.list)
    decreases |ops|
  {
    hide Inv, MemoryRoots, Admissible, Apply, KeepsHeads;
    if ops != [] {
      OpRange(cfg, boot, s, ops[0]);
      StepKeepsRoots(cfg, boot, s, ops[0]);
      StepKeepsInv(cfg, boot, s, ops[0]);
      RunKeepsRoots(cfg, boot, Apply(cfg, boot, s, ops[0]), ops[1..], t);
    }
  }

  lemma OpRange(cfg: Config, boot: seq<Cap>, s: State, op: Op)
    requires Admissible(cfg, boot, s, op)
    ensures op.RevokePass? ==> op.idx < TableSize(cfg)
  {
  }

  /** A revocation cut after any number of passes is a run of single passes. */
  lemma {:induction false} RevokeSomeIsRun(cfg: Config, boot: seq<Cap>, s: State, idx: nat, k: nat) returns (ops: seq<Op>)
    requires Revocable(cfg, boot, s, Pos(s.list, idx)) && idx < TableSize(cfg)
    ensures IsRun(cfg, boot, s, ops, RevokeSome(cfg, boot, s, idx, k))
    decreases k
  {
    hide *;
    SomeStep(cfg, boot, s, idx, k);
    PassIsOp(cfg, boot, s, idx);
    var (s', err) := RevokeStepAt(cfg, s, Pos(s.list, idx));
    ops := [];
    if k == 0 {
      NoOps(cfg, boot, s);
    } else {
      var rest := [];
      if err == Continue { rest := RevokeSomeIsRun(cfg, boot, s', idx, k - 1); }
      PassThen(cfg, boot, s, idx, k, rest);
      ops := [RevokePass(idx)] + rest;
    }
  }

  lemma PassThen(cfg: Config, boot: seq<Cap>, s: State, idx: nat, k: nat, rest: seq<Op>)
    requires Revocable(cfg, boot, s, Pos(s.list, idx)) && idx < TableSize(cfg) && k > 0
    requires var (s', err) := RevokeStepAt(cfg, s, Pos(s.list, idx));
             if err == Continue then
               Revocable(cfg, boot, s', Pos(s'.list, idx)) && IsRun(cfg, boot, s', rest, RevokeSome(cfg, boot, s', idx, k - 1))
             else rest == []
    ensures IsRun(cfg, boot, s, [RevokePass(idx)] + rest, RevokeSome(cfg, boot, s, idx, k))
  {
    PassIsOp(cfg, boot, s, idx);
    SomeStep(cfg, boot, s, idx, k);
    hide Inv, Bounded, Revocable, RevokeStepAt, Admissible, Apply, RevokeSome;
    NoOps(cfg, boot, RevokeStepAt(cfg, s, Pos(s.list, idx)).0);
    hide IsRun;
    OpThen(cfg, boot, s, RevokePass(idx), rest, RevokeSome(cfg, boot, s, idx, k));
  }

  lemma NoOps(cfg: Config, boot: seq<Cap>, s: State)
    ensures IsRun(cfg, boot, s, [], s)
  {
  }

  lemma OpThen(cfg: Config, boot: seq<Cap>, s: State, op: Op, rest: seq<Op>, t: State)
    requires Bounded(cfg, s) && Admissible(cfg, boot, s, op) && IsRun(cfg, boot, Apply(cfg, boot, s, op), rest, t)
    ensures IsRun(cfg, boot, s, [op] + rest, t)
  {
    hide Bounded, Admissible, Apply;
    assert ([op] + rest)[1..] == rest;
  }

  lemma PassIsOp(cfg: Config, boot: seq<Cap>, s: State, idx: nat)
    requires Revocable(cfg, boot, s, Pos(s.list, idx)) && idx < TableSize(cfg)
    ensures Pos(s.list, idx) < |s.list|
    ensures Bounded(cfg, s) && Admissible(cfg, boot, s, RevokePass(idx))
    ensures Apply(cfg, boot, s, RevokePass(idx)) == RevokeStepAt(cfg, s, Pos(s.list, idx)).0
  {
    RevocableParts(cfg, boot, s, Pos(s.list, idx));
    hide Inv, AnchorSafe, AnchorStays, RevokeStepAt;
  }

  // ----- boot -----

  /** The tables after the boot loop and `sched_init`, before the boot frame is loaded. */
  function BootTables(cfg: Config, caps: seq<Cap>, pmp: seq<seq<PmpReg>>): State
    requires ValidConfig(cfg) && |caps| > 0 && !caps[0].None?
  {
    var zero: seq<Word> := seq(cfg.slotCnt, _ => 0);
    State(BootList(caps), Init(cfg, zero, cfg.maxHart + 1), pmp,
          seq(cfg.chanCnt, _ => Chan(Nothing, Nothing, Nothing)))
  }

  /** What the platform tables provide: valid, separated capabilities in the table of
      process 0, and one time capability per hart for the whole period. */
  ghost predicate PlatformOk(cfg: Config, caps: seq<Cap>) {
    && ValidConfig(cfg) && cfg.pmpCnt > 0
    && 0 < |caps| <= cfg.capCnt
    && !caps[0].None?
    && BootOk(cfg, BootCaps(caps))
    && (forall i: nat :: i < |caps| && caps[i].Pmp? ==> !caps[i].used)
    && (forall h: nat :: HartOk(cfg, h) ==> FullHart(cfg, caps, h))
    && (forall i: nat :: i < |caps| && caps[i].Time? ==> caps[i].bgn == 0 && caps[i].end == cfg.slotCnt)
  }

  ghost predicate FullHart(cfg: Config, caps: seq<Cap>, h: nat)
    requires |caps| > 0 && !caps[0].None?
  {
    exists n :: n in BootList(caps) && n.cap.Time? && n.cap.hart == h
  }

  ghost predicate RegistersFree(cfg: Config, pmp: seq<seq<PmpReg>>) {
    && |pmp| == cfg.procCnt
    && forall i: nat :: i < |pmp| ==> |pmp[i]| == cfg.pmpCnt && forall r: nat :: r < |pmp[i]| ==> pmp[i][r].cfg == 0
  }

  lemma BootListInv(cfg: Config, caps: seq<Cap>)
    requires PlatformOk(cfg, caps)
    ensures ListInv(BootCaps(caps), BootList(caps)) && MemoryRoots(BootCaps(caps), BootList(caps))
  {
    var boot, l := BootCaps(caps), BootList(caps);
    assert |boot| == |l|;
    forall i: nat | i < |l| ensures WithinBoot(boot, l[i]) && HeadOk(boot, l, i) && Sound(l[i].cap) && l[i].fam == i {
      assert CapOk(cfg, boot[i]) && l[i].cap == boot[i];
    }
    forall f: nat | f < |boot| && boot[f].Memory? ensures Listed(l, f) {
      assert l[f].fam == f;
    }
  }

  lemma FirstPage(n: nat, m: nat, i: nat)
    requires 0 < n && i < m
    ensures i < n * m && i / m == 0
  {
    MulMore(1, n, m);
    DivUnique(i, m, 0, i);
  }

  lemma FirstTable(cfg: Config, idx: nat)
    requires ValidConfig(cfg) && idx < cfg.capCnt
    ensures idx < TableSize(cfg) && Pid(cfg, idx) == 0
  {
    FirstPage(cfg.procCnt, cfg.capCnt, idx);
  }

  lemma BootIndices(cfg: Config, caps: seq<Cap>, i: nat)
    requires PlatformOk(cfg, caps) && i < |BootList(caps)|
    ensures NodeOk(cfg, BootList(caps)[i]) && Pid(cfg, BootList(caps)[i].idx) == 0
    ensures CapIsValid(BootCaps(caps)[i]) || i == 0
  {
    var n := BootList(caps)[i];
    assert CapOk(cfg, BootCaps(caps)[i]);
    FirstTable(cfg, n.idx);
  }

  lemma BootSchedule(cfg: Config, caps: seq<Cap>, s: State, h: nat, t: nat)
    requires PlatformOk(cfg, caps) && Bounded(cfg, s) && s == BootTables(cfg, caps, s.pmp)
    requires HartOk(cfg, h) && t < cfg.slotCnt
    ensures SlotAgrees(cfg, s, h, t)
  {
    AtInit(cfg, seq(cfg.slotCnt, _ => 0), cfg.maxHart + 1, h, t);
    hide Pid, TableSize, Init, At, BootOk;
    forall n | n in s.list && n.cap.Time? && n.cap.hart == h
      ensures Owns(n, h, t) && At(cfg, s.slots, h, t) == Entry(Pid(cfg, n.idx), n.cap.end - t)
    {
      var i: nat :| i < |s.list| && s.list[i] == n;
      BootIndices(cfg, caps, i);
    }
    assert FullHart(cfg, caps, h);
  }

  /** The system boots into a state that satisfies the invariant. */
  lemma BootKeepsInv(cfg: Config, caps: seq<Cap>, pmp: seq<seq<PmpReg>>)
    requires PlatformOk(cfg, caps) && RegistersFree(cfg, pmp)
    ensures Inv(cfg, BootCaps(caps), BootTables(cfg, caps, pmp))
    ensures 0 < TableSize(cfg)
    ensures var (s, err) := PmpLoad(cfg, BootTables(cfg, caps, pmp), 0, 0);
            err == Success && Inv(cfg, BootCaps(caps), s) && MemoryRoots(BootCaps(caps), s.list)
  {
    var s := BootTables(cfg, caps, pmp);
    BootListInv(cfg, caps);
    forall i: nat | i < |s.list| ensures NodeOk(cfg, s.list[i]) { BootIndices(cfg, caps, i); }
    assert Bounded(cfg, s);
    forall h: nat, t: nat | HartOk(cfg, h) && t < cfg.slotCnt ensures SlotAgrees(cfg, s, h, t) {
      BootSchedule(cfg, caps, s, h, t);
    }
    forall pid: nat, slot: nat | pid < cfg.procCnt && slot < cfg.pmpCnt ensures RegisterAgrees(cfg, s, pid, slot) {
      forall n | n in s.list ensures !Loads(cfg, n, pid, slot) {
        var i: nat :| i < |s.list| && s.list[i] == n;
        assert n.cap == caps[n.idx];
      }
    }
    BootIndices(cfg, caps, 0);
    LoadKeepsInv(cfg, BootCaps(caps), s, 0, 0);
    BindKeepsRoots(BootCaps(caps), s.list, 0, true, 0);
    assert s.list[0].idx == 0 && BootCaps(caps)[0].Pmp?;
    assert Pos(s.list, 0) == 0;
  }
}
