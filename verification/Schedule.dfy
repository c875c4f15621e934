/** The time schedule: one 64-bit word per slot, holding a 16-bit lane per hart. */
module Schedule {
  import opened Capability
  import opened Arith

  // ----- one word -----

  type Word = w: nat | w < 0x1_0000_0000_0000_0000

  /** 1 << (lane * 16). */
  function Unit(lane: nat): nat requires lane < 4 {
    if lane == 0 then 1 else if lane == 1 then 0x1_0000
    else if lane == 2 then 0x1_0000_0000 else 0x1_0000_0000_0000
  }

  /** The 16 bits that belong to one hart: the word shifted down and cut to 0xFFFF. */
  function Lane(w: Word, lane: nat): (v: nat)
    requires lane < 4
    ensures v <= 0xFFFF
  {
    (w / Unit(lane)) % 0x1_0000
  }

  lemma {:induction false} LaneFits(w: Word, lane: nat)
    requires lane < 4
    ensures Lane(w, lane) * Unit(lane) <= w
    ensures w - Lane(w, lane) * Unit(lane) + 0xFFFF * Unit(lane) < 0x1_0000_0000_0000_0000
  {
    Split(w);
    hide Lane;
    if lane == 0 {} else if lane == 1 {} else if lane == 2 {} else {}
  }

  /** A word is its four lanes. */
  lemma Split(w: Word)
    ensures w == Lane(w, 0) + Lane(w, 1) * 0x1_0000 + Lane(w, 2) * 0x1_0000_0000 + Lane(w, 3) * 0x1_0000_0000_0000
  {
    var n := 0x1_0000;
    var a, r0 := w / n, w % n;
    var b, r1 := a / n, a % n;
    var c, r2 := b / n, b % n;
    DivMod(w, n);
    DivMod(a, n);
    DivMod(b, n);
    DivUnique(w, 1, w, 0);
    DivUnique(w, 0x1_0000_0000, b, r1 * 0x1_0000 + r0);
    DivUnique(w, 0x1_0000_0000_0000, c, r2 * 0x1_0000_0000 + r1 * 0x1_0000 + r0);
    DivUnique(c, n, 0, c);
  }

  lemma Joined(w: Word, a: nat, b: nat, c: nat, d: nat)
    requires a <= 0xFFFF && b <= 0xFFFF && c <= 0xFFFF && d <= 0xFFFF
    requires w == a + b * 0x1_0000 + c * 0x1_0000_0000 + d * 0x1_0000_0000_0000
    ensures Lane(w, 0) == a && Lane(w, 1) == b && Lane(w, 2) == c && Lane(w, 3) == d
  {
    var n := 0x1_0000;
    DivUnique(w, 1, w, 0);
    DivUnique(w, n, b + c * 0x1_0000 + d * 0x1_0000_0000, a);
    DivUnique(w, 0x1_0000_0000, c + d * 0x1_0000, a + b * 0x1_0000);
    DivUnique(w, 0x1_0000_0000_0000, d, a + b * 0x1_0000 + c * 0x1_0000_0000);
    DivUnique(b + c * 0x1_0000 + d * 0x1_0000_0000, n, c + d * 0x1_0000, b);
    DivUnique(c + d * 0x1_0000, n, d, c);
    DivUnique(d, n, 0, d);
  }

  /** `w & ~(0xFFFF << lane * 16)`. */
  function Clear(w: Word, lane: nat): Word
    requires lane < 4
  {
    LaneFits(w, lane);
    w - Lane(w, lane) * Unit(lane)
  }

  /** `w | (v << lane * 16)` for a word whose lane is clear. */
  function Or(w: Word, lane: nat, v: nat): Word
    requires lane < 4 && v <= 0xFFFF && Lane(w, lane) == 0
  {
    LaneFits(w, lane);
    w + v * Unit(lane)
  }

  lemma LaneOfClear(w: Word, lane: nat, other: nat)
    requires lane < 4 && other < 4
    ensures Lane(Clear(w, lane), other) == if other == lane then 0 else Lane(w, other)
  {
    Split(w);
    hide Lane;
    var r := Clear(w, lane);
    Joined(r, if lane == 0 then 0 else Lane(w, 0), if lane == 1 then 0 else Lane(w, 1),
           if lane == 2 then 0 else Lane(w, 2), if lane == 3 then 0 else Lane(w, 3));
  }

  lemma LaneOfOr(w: Word, lane: nat, v: nat, other: nat)
    requires lane < 4 && other < 4 && v <= 0xFFFF && Lane(w, lane) == 0
    ensures Lane(Or(w, lane, v), other) == if other == lane then v else Lane(w, other)
  {
    Split(w);
    hide Lane;
    var r := Or(w, lane, v);
    Joined(r, if lane == 0 then v else Lane(w, 0), if lane == 1 then v else Lane(w, 1),
           if lane == 2 then v else Lane(w, 2), if lane == 3 then v else Lane(w, 3));
  }

  /** Clear a lane, then write it. */
  function Put(w: Word, lane: nat, v: nat): Word
    requires lane < 4 && v <= 0xFFFF
  {
    LaneOfClear(w, lane, lane);
    Or(Clear(w, lane), lane, v)
  }

  /** Writing one hart's lane sets that lane and leaves the other three as they were. */
  lemma LaneOfPut(w: Word, lane: nat, v: nat, other: nat)
    requires lane < 4 && other < 4 && v <= 0xFFFF
    ensures Lane(Put(w, lane, v), other) == if other == lane then v else Lane(w, other)
  {
    LaneOfClear(w, lane, lane);
    LaneOfClear(w, lane, other);
    LaneOfOr(Clear(w, lane), lane, v, other);
  }

  /** A lane's content: owner in the upper byte, remaining length in the lower. */
  function Entry(pid: nat, len: nat): (e: nat)
    requires pid < 256 && len < 256
    ensures e <= 0xFFFF
  {
    pid * 256 + len
  }

  function EntryPid(e: nat): nat {
    (e / 256) % 256
  }

  function EntryLen(e: nat): nat {
    e % 256
  }

  /** A lane gives back the owner and the length that were packed into it. */
  lemma EntryRoundTrip(pid: nat, len: nat)
    requires pid < 256 && len < 256
    ensures EntryPid(Entry(pid, len)) == pid
    ensures EntryLen(Entry(pid, len)) == len
  {
  }

  lemma LowBytes(e: nat)
    ensures EntryPid(e % 0x1_0000) == (e / 256) % 256
    ensures EntryLen(e % 0x1_0000) == e % 256
  {
    var q, r := e / 0x1_0000, e % 0x1_0000;
    DivMod(e, 0x1_0000);
    DivMod(r, 256);
    DivUnique(e, 256, q * 256 + r / 256, r % 256);
    DivMod(r / 256, 256);
    DivUnique(q * 256 + r / 256, 256, q + r / 256 / 256, r / 256 % 256);
  }

  // ----- the whole table of slots -----

  type Slots = seq<Word>

  function LaneNo(cfg: Config, hart: nat): (lane: nat)
    requires ValidConfig(cfg) && cfg.minHart <= hart <= cfg.maxHart
    ensures lane < 4
  {
    hart - cfg.minHart
  }

  predicate HartOk(cfg: Config, hart: nat) {
    cfg.minHart <= hart <= cfg.maxHart
  }

  /** What hart `hart` finds in slot `t`. */
  function At(cfg: Config, slots: Slots, hart: nat, t: nat): nat
    requires ValidConfig(cfg) && HartOk(cfg, hart) && t < |slots|
  {
    Lane(slots[t], LaneNo(cfg, hart))
  }

  predicate UpdateOk(cfg: Config, slots: Slots, pid: nat, end: nat, hart: nat, to: nat) {
    ValidConfig(cfg) && HartOk(cfg, hart) && pid < 256 && to <= |slots| && to <= end < 256
  }

  /** Give slots [from, to) of a hart to `pid`, in a slice that lasts until `end`. */
  function Update(cfg: Config, slots: Slots, pid: nat, end: nat, hart: nat, from: nat, to: nat): (r: Slots)
    requires UpdateOk(cfg, slots, pid, end, hart, to)
    ensures |r| == |slots|
  {
    seq(|slots|, t requires 0 <= t < |slots| =>
      if from <= t < to then Put(slots[t], LaneNo(cfg, hart), Entry(pid, end - t)) else slots[t])
  }

  /** Take slots [from, to) of a hart away. */
  function Erase(cfg: Config, slots: Slots, hart: nat, from: nat, to: nat): (r: Slots)
    requires ValidConfig(cfg) && HartOk(cfg, hart) && to <= |slots|
    ensures |r| == |slots|
  {
    seq(|slots|, t requires 0 <= t < |slots| =>
      if from <= t < to then Clear(slots[t], LaneNo(cfg, hart)) else slots[t])
  }

  lemma AtUpdate(cfg: Config, slots: Slots, pid: nat, end: nat, hart: nat, from: nat, to: nat, h: nat, t: nat)
    requires UpdateOk(cfg, slots, pid, end, hart, to) && HartOk(cfg, h) && t < |slots|
    ensures At(cfg, Update(cfg, slots, pid, end, hart, from, to), h, t)
         == if h == hart && from <= t < to then Entry(pid, end - t) else At(cfg, slots, h, t)
  {
    if from <= t < to {
      LaneOfPut(slots[t], LaneNo(cfg, hart), Entry(pid, end - t), LaneNo(cfg, h));
    }
  }

  lemma AtErase(cfg: Config, slots: Slots, hart: nat, from: nat, to: nat, h: nat, t: nat)
    requires ValidConfig(cfg) && HartOk(cfg, hart) && HartOk(cfg, h) && to <= |slots| && t < |slots|
    ensures At(cfg, Erase(cfg, slots, hart, from, to), h, t)
         == if h == hart && from <= t < to then 0 else At(cfg, slots, h, t)
  {
    if from <= t < to {
      LaneOfClear(slots[t], LaneNo(cfg, hart), LaneNo(cfg, h));
    }
  }

  /** Boot: every hart's whole period belongs to process 0, one hart after the other. */
  function Init(cfg: Config, slots: Slots, hart: nat): (r: Slots)
    requires ValidConfig(cfg) && cfg.minHart <= hart <= cfg.maxHart + 1 && |slots| == cfg.slotCnt
    ensures |r| == |slots|
    decreases hart
  {
    if hart == cfg.minHart then slots
    else Update(cfg, Init(cfg, slots, hart - 1), 0, cfg.slotCnt, hart - 1, 0, cfg.slotCnt)
  }

  lemma {:induction false} AtInit(cfg: Config, slots: Slots, hart: nat, h: nat, t: nat)
    requires ValidConfig(cfg) && cfg.minHart <= hart <= cfg.maxHart + 1 && |slots| == cfg.slotCnt
    requires HartOk(cfg, h) && t < cfg.slotCnt
    ensures At(cfg, Init(cfg, slots, hart), h, t)
         == if h < hart then Entry(0, cfg.slotCnt - t) else At(cfg, slots, h, t)
    decreases hart
  {
    if hart != cfg.minHart {
      AtInit(cfg, slots, hart - 1, h, t);
      AtUpdate(cfg, Init(cfg, slots, hart - 1), 0, cfg.slotCnt, hart - 1, 0, cfg.slotCnt, h, t);
    }
  }

  // ----- ties between harts -----

  /** Another hart reads the same owner for the slot. */
  predicate SameOwner(cfg: Config, slots: Slots, h: nat, i: nat, t: nat)
    requires ValidConfig(cfg) && HartOk(cfg, h) && HartOk(cfg, i) && t < |slots|
  {
    EntryPid(At(cfg, slots, h, t)) == EntryPid(At(cfg, slots, i, t))
  }

  function LenAt(cfg: Config, slots: Slots, h: nat, t: nat): nat
    requires ValidConfig(cfg) && HartOk(cfg, h) && t < |slots|
  {
    EntryLen(At(cfg, slots, h, t))
  }

  /** A lower hart goes first with a slice that is at least as long. */
  predicate BeatenByLower(cfg: Config, slots: Slots, h: nat, t: nat)
    requires ValidConfig(cfg) && HartOk(cfg, h) && t < |slots|
  {
    exists i: nat :: cfg.minHart <= i < h && SameOwner(cfg, slots, h, i, t) && LenAt(cfg, slots, h, t) <= LenAt(cfg, slots, i, t)
  }

  /** A higher hart goes first with a longer slice. The last hart is not looked at. */
  predicate BeatenByHigher(cfg: Config, slots: Slots, h: nat, t: nat)
    requires ValidConfig(cfg) && HartOk(cfg, h) && t < |slots|
  {
    exists i: nat :: h < i < cfg.maxHart && SameOwner(cfg, slots, h, i, t) && LenAt(cfg, slots, h, t) < LenAt(cfg, slots, i, t)
  }

  predicate TieLost(cfg: Config, slots: Slots, h: nat, t: nat)
    requires ValidConfig(cfg) && HartOk(cfg, h) && t < |slots|
  {
    BeatenByLower(cfg, slots, h, t) || BeatenByHigher(cfg, slots, h, t)
  }

  /** Of two harts that read the same owner, not both go on, except that the last hart and a
      lower one do if the last hart's slice is longer. */
  lemma TwoWinners(cfg: Config, slots: Slots, h: nat, g: nat, t: nat)
    requires ValidConfig(cfg) && HartOk(cfg, h) && HartOk(cfg, g) && h < g && t < |slots|
    requires SameOwner(cfg, slots, h, g, t)
    requires !TieLost(cfg, slots, h, t) && !TieLost(cfg, slots, g, t)
    ensures g == cfg.maxHart && LenAt(cfg, slots, h, t) < LenAt(cfg, slots, g, t)
  {
    hide At, EntryPid, EntryLen;
  }

  /** Some hart always goes on: of those that read one owner, the first with the longest slice. */
  lemma {:induction false} SomeWinner(cfg: Config, slots: Slots, g: nat, t: nat) returns (w: nat)
    requires ValidConfig(cfg) && HartOk(cfg, g) && t < |slots|
    ensures HartOk(cfg, w) && SameOwner(cfg, slots, w, g, t) && LenAt(cfg, slots, w, t) >= LenAt(cfg, slots, g, t)
    ensures !TieLost(cfg, slots, w, t)
    ensures g < cfg.maxHart ==> w < cfg.maxHart
    decreases 256 - LenAt(cfg, slots, g, t), g
  {
    hide At, EntryPid;
    if BeatenByLower(cfg, slots, g, t) {
      var i: nat :| cfg.minHart <= i < g && SameOwner(cfg, slots, g, i, t) && LenAt(cfg, slots, g, t) <= LenAt(cfg, slots, i, t);
      w := SomeWinner(cfg, slots, i, t);
    } else if BeatenByHigher(cfg, slots, g, t) {
      var i: nat :| g < i < cfg.maxHart && SameOwner(cfg, slots, g, i, t) && LenAt(cfg, slots, g, t) < LenAt(cfg, slots, i, t);
      w := SomeWinner(cfg, slots, i, t);
    } else {
      w := g;
    }
  }

  /** Hart `h` reads the same owner as `g`, has some of the slice left, and no hart goes before it. */
  predicate Wins(cfg: Config, slots: Slots, h: nat, g: nat, t: nat)
    requires ValidConfig(cfg) && HartOk(cfg, h) && HartOk(cfg, g) && t < |slots|
  {
    SameOwner(cfg, slots, h, g, t) && LenAt(cfg, slots, h, t) > 0 && !TieLost(cfg, slots, h, t)
  }

  ghost predicate TwoWin(cfg: Config, slots: Slots, g: nat, t: nat)
    requires ValidConfig(cfg) && HartOk(cfg, g) && t < |slots|
  {
    exists h: nat, i: nat :: HartOk(cfg, h) && HartOk(cfg, i) && h < i && Wins(cfg, slots, h, g, t) && Wins(cfg, slots, i, g, t)
  }

  /** The last hart reads that owner too, some lower hart with a slice does, and the last hart's
      slice is longer than each of theirs. */
  ghost predicate LastIsLonger(cfg: Config, slots: Slots, g: nat, t: nat)
    requires ValidConfig(cfg) && HartOk(cfg, g) && t < |slots|
  {
    && SameOwner(cfg, slots, cfg.maxHart, g, t)
    && (exists i: nat :: cfg.minHart <= i < cfg.maxHart && SameOwner(cfg, slots, i, g, t) && LenAt(cfg, slots, i, t) > 0)
    && (forall i: nat :: cfg.minHart <= i < cfg.maxHart && SameOwner(cfg, slots, i, g, t) ==>
          LenAt(cfg, slots, i, t) < LenAt(cfg, slots, cfg.maxHart, t))
  }

  /** Two harts go on for one owner if and only if the last hart's slice is the longest. */
  lemma TwoWinIff(cfg: Config, slots: Slots, g: nat, t: nat)
    requires ValidConfig(cfg) && HartOk(cfg, g) && t < |slots|
    ensures TwoWin(cfg, slots, g, t) <==> LastIsLonger(cfg, slots, g, t)
  {
    hide At, EntryPid, EntryLen;
    var last := cfg.maxHart;
    if TwoWin(cfg, slots, g, t) {
      var h: nat, i: nat :| HartOk(cfg, h) && HartOk(cfg, i) && h < i && Wins(cfg, slots, h, g, t) && Wins(cfg, slots, i, g, t);
      TwoWinners(cfg, slots, h, i, t);
      forall j: nat | cfg.minHart <= j < last && SameOwner(cfg, slots, j, g, t)
        ensures LenAt(cfg, slots, j, t) < LenAt(cfg, slots, last, t)
      {
        assert SameOwner(cfg, slots, last, j, t);
      }
    }
    if LastIsLonger(cfg, slots, g, t) {
      var i: nat :| cfg.minHart <= i < last && SameOwner(cfg, slots, i, g, t) && LenAt(cfg, slots, i, t) > 0;
      var w := SomeWinner(cfg, slots, i, t);
      forall j: nat | cfg.minHart <= j < last && SameOwner(cfg, slots, last, j, t)
        ensures LenAt(cfg, slots, j, t) < LenAt(cfg, slots, last, t)
      {
        assert SameOwner(cfg, slots, j, g, t);
      }
      assert Wins(cfg, slots, w, g, t) && Wins(cfg, slots, last, g, t);
    }
  }

  // ----- the table in memory -----

  class Scheduler {
    const cfg: Config
    const slots: array<Word>

    ghost predicate Valid() {
      ValidConfig(cfg) && slots.Length == cfg.slotCnt
    }

    /** A zeroed table. */
    constructor (cfg: Config)
      requires ValidConfig(cfg)
      ensures Valid() && this.cfg == cfg && fresh(slots)
      ensures slots[..] == seq(cfg.slotCnt, _ => 0)
    {
      this.cfg := cfg;
      slots := new Word[cfg.slotCnt](_ => 0);
    }

    method SchedUpdate(pid: nat, end: nat, hart: nat, from: nat, to: nat)
      requires Valid() && UpdateOk(cfg, slots[..], pid, end, hart, to)
      modifies slots
      ensures slots[..] == Update(cfg, old(slots[..]), pid, end, hart, from, to)
    {
      var lane := LaneNo(cfg, hart);
      var i := from;
      while i < to
        invariant from <= i && (i <= to || i == from)
        invariant forall t: nat :: t < slots.Length ==>
          slots[t] == if from <= t < to && t < i then Put(old(slots[t]), lane, Entry(pid, end - t)) else old(slots[t])
      {
        LaneOfClear(slots[i], lane, lane);
        slots[i] := Clear(slots[i], lane);
        slots[i] := Or(slots[i], lane, Entry(pid, end - i));
        i := i + 1;
      }
    }

    method SchedDelete(hart: nat, from: nat, to: nat)
      requires Valid() && HartOk(cfg, hart) && to <= slots.Length
      modifies slots
      ensures slots[..] == Erase(cfg, old(slots[..]), hart, from, to)
    {
      var lane := LaneNo(cfg, hart);
      var i := from;
      while i < to
        invariant from <= i && (i <= to || i == from)
        invariant forall t: nat :: t < slots.Length ==>
          slots[t] == if from <= t < to && t < i then Clear(old(slots[t]), lane) else old(slots[t])
      {
        slots[i] := Clear(slots[i], lane);
        i := i + 1;
      }
    }

    method SchedInit()
      requires Valid()
      modifies slots
      ensures slots[..] == Init(cfg, old(slots[..]), cfg.maxHart + 1)
    {
      var hart := cfg.minHart;
      while hart <= cfg.maxHart
        invariant cfg.minHart <= hart <= cfg.maxHart + 1
        invariant slots[..] == Init(cfg, old(slots[..]), hart)
      {
        SchedUpdate(0, cfg.slotCnt, hart, 0, cfg.slotCnt);
        hart := hart + 1;
      }
    }

    /** Owner and remaining length a hart reads for a slot of the running count. */
    method SlotInfoGet(hart: nat, slot: nat) returns (pid: nat, length: nat)
      requires Valid() && HartOk(cfg, hart)
      ensures pid == EntryPid(At(cfg, slots[..], hart, slot % cfg.slotCnt))
      ensures length == EntryLen(At(cfg, slots[..], hart, slot % cfg.slotCnt))
    {
      var entry := slots[slot % cfg.slotCnt] / Unit(LaneNo(cfg, hart));
      LowBytes(entry);
      pid := (entry / 256) % 256;
      length := entry % 256;
    }

    /** The two loops over the other harts in sched_fetch. */
    method LosesTie(hart: nat, slot: nat, pid: nat, length: nat) returns (lost: bool)
      requires Valid() && HartOk(cfg, hart)
      requires pid == EntryPid(At(cfg, slots[..], hart, slot % cfg.slotCnt))
      requires length == EntryLen(At(cfg, slots[..], hart, slot % cfg.slotCnt))
      ensures lost == TieLost(cfg, slots[..], hart, slot % cfg.slotCnt)
    {
      hide At, EntryPid, EntryLen;
      ghost var t := slot % cfg.slotCnt;
      var i := cfg.minHart;
      while i < hart
        invariant cfg.minHart <= i <= hart
        invariant forall j: nat :: cfg.minHart <= j < i && SameOwner(cfg, slots[..], hart, j, t) ==>
                    LenAt(cfg, slots[..], hart, t) > LenAt(cfg, slots[..], j, t)
      {
        var otherPid, otherLength := SlotInfoGet(i, slot);
        if pid == otherPid && length <= otherLength {
          assert SameOwner(cfg, slots[..], hart, i, t);
          return true;
        }
        i := i + 1;
      }
      i := hart + 1;
      while i < cfg.maxHart
        invariant hart < i && (i <= cfg.maxHart || i == hart + 1)
        invariant forall j: nat :: hart < j < i && j < cfg.maxHart && SameOwner(cfg, slots[..], hart, j, t) ==>
                    LenAt(cfg, slots[..], hart, t) >= LenAt(cfg, slots[..], j, t)
      {
        var otherPid, otherLength := SlotInfoGet(i, slot);
        if pid == otherPid && length < otherLength {
          assert SameOwner(cfg, slots[..], hart, i, t);
          return true;
        }
        i := i + 1;
      }
      return false;
    }
  }
}
