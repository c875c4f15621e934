/** The capability operations as functions on the abstract kernel state: the derivation
    list, the schedule, the PMP registers and the channel records. */
module CapOps {
  import opened Capability
  import opened CapList
  import opened Schedule

  datatype Option<+T> = Nothing | Some(value: T)

  /** One PMP register pair; cfg 0 means the register is free. */
  datatype PmpReg = PmpReg(cfg: nat, addr: Napot)

  /** A channel's record: waiting server, waiting client and the server's buffer entry. */
  datatype Chan = Chan(server: Option<nat>, client: Option<nat>, capBuf: Option<nat>)

  datatype State = State(list: List, slots: Slots, pmp: seq<seq<PmpReg>>, chans: seq<Chan>)

  /** The configuration byte of a loaded register: `rwx | 0x18`. */
  function PmpCfg(rwx: Rwx): (cfg: nat)
    ensures 0 < cfg < 256
  {
    24 + (if rwx.r then 1 else 0) + (if rwx.w then 2 else 0) + (if rwx.x then 4 else 0)
  }

  // ----- array bounds -----

  /** The fields a capability uses as array indices are in range. */
  predicate CapOk(cfg: Config, c: Cap) {
    && Sound(c)
    && match c
       case None => false
       case Time(hart, _, _, end) => HartOk(cfg, hart) && end <= cfg.slotCnt
       case Memory(_, _, _, _, _, _) => true
       case Pmp(_, _, used, slot) => used ==> slot < cfg.pmpCnt
       case Monitor(_, _, end) => end <= cfg.procCnt
       case Channel(_, _, end) => end <= cfg.chanCnt
       case Socket(chan, mode, _, _) => chan < cfg.chanCnt && mode <= 1
  }

  predicate NodeOk(cfg: Config, n: Node) {
    n.idx < TableSize(cfg) && CapOk(cfg, n.cap)
  }

  ghost predicate Bounded(cfg: Config, s: State) {
    && ValidConfig(cfg)
    && |s.slots| == cfg.slotCnt
    && |s.pmp| == cfg.procCnt
    && (forall i: nat :: i < |s.pmp| ==> |s.pmp[i]| == cfg.pmpCnt)
    && |s.chans| == cfg.chanCnt
    && (forall i: nat :: i < |s.list| ==> NodeOk(cfg, s.list[i]))
  }

  /** The capability in a table entry, empty entries included. */
  function CapAt(l: List, idx: nat): Cap {
    if Pos(l, idx) < |l| then l[Pos(l, idx)].cap else None
  }

  // ----- registers and channels -----

  function Load(pmp: seq<seq<PmpReg>>, pid: nat, slot: nat, reg: PmpReg): seq<seq<PmpReg>>
    requires pid < |pmp| && slot < |pmp[pid]|
  {
    pmp[pid := pmp[pid][slot := reg]]
  }

  /** Unloading clears the configuration byte and leaves the address. */
  function Unload(pmp: seq<seq<PmpReg>>, pid: nat, slot: nat): seq<seq<PmpReg>>
    requires pid < |pmp| && slot < |pmp[pid]|
  {
    Load(pmp, pid, slot, pmp[pid][slot].(cfg := 0))
  }

  function UnloadCap(pmp: seq<seq<PmpReg>>, pid: nat, c: Cap): seq<seq<PmpReg>>
    requires pid < |pmp| && (c.Pmp? && c.used ==> c.slot < |pmp[pid]|)
  {
    if c.Pmp? && c.used then Unload(pmp, pid, c.slot) else pmp
  }

  function ClearSock(chans: seq<Chan>, c: Cap, pid: nat): seq<Chan>
    requires c.Socket? && c.chan < |chans|
  {
    if c.tok == 0 then chans[c.chan := Chan(Nothing, Nothing, Nothing)]
    else if chans[c.chan].client == Some(pid) then chans[c.chan := chans[c.chan].(client := Nothing)]
    else chans
  }

  // ----- field updates -----

  function WithMark(c: Cap, m: nat): Cap
    requires Ranged(c)
  {
    match c
    case Time(hart, bgn, _, end) => Time(hart, bgn, m, end)
    case Memory(tag, rwx, lck, bgn, _, end) => Memory(tag, rwx, lck, bgn, m, end)
    case Monitor(bgn, _, end) => Monitor(bgn, m, end)
    case Channel(bgn, _, end) => Channel(bgn, m, end)
  }

  function WithLock(c: Cap, lck: bool): Cap
    requires c.Memory?
  {
    Memory(c.tag, c.rwx, lck, c.bgn, c.mrk, c.end)
  }

  /** A frame bound to a PMP slot, or released from it. */
  function Bind(c: Cap, used: bool, slot: nat): Cap
    requires c.Pmp?
  {
    Pmp(c.addr, c.rwx, used, slot)
  }

  // ----- move -----

  ghost function MoveAt(cfg: Config, s: State, p: nat, dst: nat): State
    requires Bounded(cfg, s) && p < |s.list| && dst < TableSize(cfg)
  {
    var n := s.list[p];
    var from, to := Pid(cfg, n.idx), Pid(cfg, dst);
    if from != to && n.cap.Time? then
      s.(list := SetIdx(s.list, p, dst),
         slots := Update(cfg, s.slots, to, n.cap.end, n.cap.hart, n.cap.mrk, n.cap.end))
    else if from != to && n.cap.Pmp? && n.cap.used then
      s.(list := SetIdx(SetCap(s.list, p, Bind(n.cap, false, 0)), p, dst),
         pmp := Unload(s.pmp, from, n.cap.slot))
    else s.(list := SetIdx(s.list, p, dst))
  }

  ghost function Move(cfg: Config, s: State, src: nat, dst: nat): (State, Err)
    requires Bounded(cfg, s) && src < TableSize(cfg) && dst < TableSize(cfg)
  {
    var p := Pos(s.list, src);
    if p == |s.list| then (s, SrcEmpty)
    else if Pos(s.list, dst) < |s.list| then (s, DstOccupied)
    else (MoveAt(cfg, s, p, dst), Success)
  }

  // ----- delete -----

  ghost function DeleteAt(cfg: Config, s: State, p: nat): State
    requires Bounded(cfg, s) && p < |s.list|
  {
    var n := s.list[p];
    var pid := Pid(cfg, n.idx);
    State(
      RemoveAt(s.list, p),
      if n.cap.Time? then Erase(cfg, s.slots, n.cap.hart, n.cap.mrk, n.cap.end) else s.slots,
      UnloadCap(s.pmp, pid, n.cap),
      if n.cap.Socket? then ClearSock(s.chans, n.cap, pid) else s.chans)
  }

  ghost function Delete(cfg: Config, s: State, idx: nat): (State, Err)
    requires Bounded(cfg, s) && idx < TableSize(cfg)
  {
    var p := Pos(s.list, idx);
    if p == |s.list| then (s, Empty) else (DeleteAt(cfg, s, p), Success)
  }

  // ----- derive -----

  /** When a new capability may be taken from `c`: the kernel's test for each kind. */
  predicate CanDerive(c: Cap, n: Cap) {
    match c
    case None => false
    case Time(hart, _, mrk, end) => n.Time? && n.hart == hart && n.bgn == mrk && n.end <= end
    case Memory(tag, rwx, lck, _, mrk, end) =>
      || (n.Memory? && n.tag == tag && mrk <= n.bgn && n.end <= end && RwxLe(n.rwx, rwx) && !lck)
      || (n.Pmp? && BlockAddr(tag, mrk) <= FrameBegin(n.addr) && FrameEnd(n.addr) <= BlockAddr(tag, end)
          && RwxLe(n.rwx, rwx))
    case Pmp(_, _, _, _) => false
    case Monitor(_, mrk, end) => n.Monitor? && mrk <= n.bgn && n.end <= end
    case Channel(_, mrk, end) =>
      (n.Channel? && mrk <= n.bgn && n.end <= end) || (n.Socket? && mrk <= n.chan < end)
    case Socket(chan, mode, perm, tok) =>
      n.Socket? && n.chan == chan && n.perm == perm && n.mode == mode && tok == 0 && n.tok != 0
  }

  /** The source after a derivation: its mark moves past the new capability, or it is
      locked against further memory derivations. */
  function Charged(c: Cap, n: Cap): Cap
    requires CanDerive(c, n)
  {
    if c.Socket? then c
    else if n.Pmp? then WithLock(c, true)
    else if n.Socket? then WithMark(c, n.chan + 1)
    else WithMark(c, n.end)
  }

  ghost function DeriveAt(cfg: Config, s: State, p: nat, dst: nat, ncap: Cap): (State, Err)
    requires Bounded(cfg, s) && p < |s.list| && dst < TableSize(cfg)
    requires CapIsValid(ncap)
  {
    var c := s.list[p].cap;
    if CanDerive(c, ncap) then
      (s.(list := InsertAfter(SetCap(s.list, p, Charged(c, ncap)), p, dst, ncap),
          slots := if ncap.Time? then
                     Update(cfg, s.slots, Pid(cfg, dst), ncap.end, ncap.hart, ncap.bgn, ncap.end)
                   else s.slots), Success)
    else (s, InvalidDerivation)
  }

  ghost function Derive(cfg: Config, s: State, src: nat, dst: nat, ncap: Cap): (State, Err)
    requires Bounded(cfg, s) && src < TableSize(cfg) && dst < TableSize(cfg)
    requires CapIsValid(ncap)
  {
    var p := Pos(s.list, src);
    if p == |s.list| then (s, SrcEmpty)
    else if Pos(s.list, dst) < |s.list| then (s, DstOccupied)
    else DeriveAt(cfg, s, p, dst, ncap)
  }

  // ----- revoke -----

  /** The next entry on the cycle. */
  function Next(l: List, p: nat): (c: nat)
    requires p < |l|
    ensures c < |l|
  {
    if p + 1 < |l| then p + 1 else 0
  }

  /** The kernel's test whether the entry next to the revoked one is to be removed. */
  predicate Eats(p: Cap, c: Cap) {
    match p
    case None => false
    case Time(hart, bgn, _, end) => c.Time? && hart == c.hart && bgn <= c.bgn && c.end <= end
    case Memory(tag, _, _, bgn, _, _) =>
      || (c.Memory? && tag == c.tag && bgn <= c.bgn)
      || (c.Pmp? && BlockAddr(tag, bgn) <= FrameBegin(c.addr))
    case Pmp(_, _, _, _) => false
    case Monitor(bgn, _, _) => c.Monitor? && bgn <= c.bgn
    case Channel(bgn, _, _) => (c.Channel? && bgn <= c.bgn) || (c.Socket? && bgn <= c.chan)
    case Socket(chan, _, _, tok) => c.Socket? && chan == c.chan && tok == 0
  }

  /** The revoked capability after its neighbour `c` was removed: it takes back the
      neighbour's free part. Removing a frame or a socket changes nothing. */
  function Absorb(p: Cap, c: Cap): Cap {
    if p.Memory? && c.Memory? then WithLock(WithMark(p, c.mrk), c.lck)
    else if (p.Time? && c.Time?) || (p.Monitor? && c.Monitor?) || (p.Channel? && c.Channel?) then WithMark(p, c.mrk)
    else p
  }

  /** Whether the step that removed `c` already ends the revocation. */
  predicate Finished(p: Cap, c: Cap) {
    || (p.Time? && c.Time? && c.mrk == p.bgn)
    || (p.Memory? && c.Memory? && c.mrk == p.bgn && !c.lck)
    || (p.Monitor? && c.Monitor? && c.mrk == p.bgn)
    || (p.Channel? && c.Channel? && c.mrk == p.bgn)
  }

  /** The revoked capability when nothing is left to remove. */
  function Reset(p: Cap): Cap {
    if p.Memory? then WithLock(WithMark(p, p.bgn), false)
    else if Ranged(p) then WithMark(p, p.bgn)
    else p
  }

  /** The list after one pass of the revocation loop on the entry at position `p`. An entry that
      is alone on the cycle is its own neighbour: the handlers that rewrite the revoked entry
      after removing the neighbour then put it back. */
  function PassList(l: List, p: nat): List
    requires p < |l|
  {
    var q := Next(l, p);
    var c := l[p].cap;
    if !Eats(c, l[q].cap) then SetCap(l, p, Reset(c))
    else if q == p && Ranged(c) then SetCap(l, p, Absorb(c, c))
    else RemoveAt(SetCap(l, p, Absorb(c, l[q].cap)), q)
  }

  function PassVerdict(l: List, p: nat): Err
    requires p < |l|
  {
    var c := l[Next(l, p)].cap;
    if Eats(l[p].cap, c) && !Finished(l[p].cap, c) then Continue else Success
  }

  /** One pass: the neighbour goes, with its registers and its channel record, or the mark
      goes back to the begin; a time capability gets the freed slots. */
  ghost function RevokeStepAt(cfg: Config, s: State, p: nat): (r: (State, Err))
    requires Bounded(cfg, s) && p < |s.list|
    ensures r.1 == Continue ==>
              |r.0.list| == if |s.list| == 1 && Ranged(s.list[p].cap) then 1 else |s.list| - 1
    ensures |r.0.list| <= |s.list|
    ensures r.1 == Continue || r.1 == Success
  {
    var n, ch := s.list[p], s.list[Next(s.list, p)];
    var eats := Eats(n.cap, ch.cap);
    (State(
       PassList(s.list, p),
       if n.cap.Time? then
         Update(cfg, s.slots, Pid(cfg, n.idx), n.cap.end, n.cap.hart,
                if eats then ch.cap.mrk else n.cap.bgn, n.cap.mrk)
       else s.slots,
       if eats then UnloadCap(s.pmp, Pid(cfg, ch.idx), ch.cap) else s.pmp,
       if eats && ch.cap.Socket? then ClearSock(s.chans, ch.cap, Pid(cfg, ch.idx)) else s.chans),
     PassVerdict(s.list, p))
  }

  // ----- PMP registers -----

  ghost function PmpLoad(cfg: Config, s: State, idx: nat, slot: nat): (State, Err)
    requires Bounded(cfg, s) && idx < TableSize(cfg) && slot < cfg.pmpCnt
  {
    var p := Pos(s.list, idx);
    if p == |s.list| then (s, Empty)
    else
      var c := s.list[p].cap;
      if !c.Pmp? || c.used then (s, InvalidPmp)
      else if s.pmp[Pid(cfg, idx)][slot].cfg != 0 then (s, DstOccupied)
      else (s.(list := SetCap(s.list, p, Bind(c, true, slot)),
               pmp := Load(s.pmp, Pid(cfg, idx), slot, PmpReg(PmpCfg(c.rwx), c.addr))), Success)
  }

  ghost function PmpUnload(cfg: Config, s: State, idx: nat): (State, Err)
    requires Bounded(cfg, s) && idx < TableSize(cfg)
  {
    var p := Pos(s.list, idx);
    if p == |s.list| then (s, Empty)
    else
      var c := s.list[p].cap;
      if !c.Pmp? || !c.used then (s, InvalidPmp)
      else (s.(list := SetCap(s.list, p, Bind(c, false, 0)),
               pmp := Unload(s.pmp, Pid(cfg, idx), c.slot)), Success)
  }
}
