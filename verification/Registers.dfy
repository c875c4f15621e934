/** The PMP registers of all processes. */
module Registers {
  import opened Capability
  import opened CapOps

  class PmpFile {
    const procs: nat
    const count: nat
    const cfgs: array2<nat>
    const addrs: array2<Napot>
    /** The registers as the abstract state has them. */
    ghost var view: seq<seq<PmpReg>>

    ghost predicate Valid() reads this, cfgs, addrs {
      && cfgs.Length0 == procs && addrs.Length0 == procs
      && cfgs.Length1 == count && addrs.Length1 == count
      && |view| == procs
      && (forall i: nat :: i < procs ==> |view[i]| == count)
      && (forall i: nat, j: nat :: i < procs && j < count ==> view[i][j] == PmpReg(cfgs[i, j], addrs[i, j]))
    }

    constructor (procs: nat, count: nat)
      ensures Valid() && this.procs == procs && this.count == count && fresh(cfgs) && fresh(addrs)
      ensures forall i: nat, j: nat :: i < procs && j < count ==> view[i][j].cfg == 0
    {
      this.procs, this.count := procs, count;
      cfgs := new nat[procs, count]((_, _) => 0);
      addrs := new Napot[procs, count]((_, _) => 0);
      view := seq(procs, _ => seq(count, _ => PmpReg(0, 0)));
    }

    /** proc_pmp_avail. */
    method Avail(pid: nat, slot: nat) returns (free: bool)
      requires Valid() && pid < procs && slot < count
      ensures free <==> view[pid][slot].cfg == 0
    {
      free := cfgs[pid, slot] == 0;
    }

    /** proc_pmp_load. */
    method LoadReg(pid: nat, slot: nat, rwx: Rwx, addr: Napot)
      requires Valid() && pid < procs && slot < count
      modifies this`view, cfgs, addrs
      ensures Valid() && view == Load(old(view), pid, slot, PmpReg(PmpCfg(rwx), addr))
    {
      cfgs[pid, slot] := PmpCfg(rwx);
      addrs[pid, slot] := addr;
      view := Load(view, pid, slot, PmpReg(PmpCfg(rwx), addr));
    }

    /** proc_pmp_unload. */
    method UnloadReg(pid: nat, slot: nat)
      requires Valid() && pid < procs && slot < count
      modifies this`view, cfgs
      ensures Valid() && view == Unload(old(view), pid, slot)
    {
      cfgs[pid, slot] := 0;
      view := Unload(view, pid, slot);
    }
  }
}
