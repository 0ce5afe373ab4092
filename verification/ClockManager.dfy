/** The clock manager: demands pushed into and popped out of a table of ten slots. */
module ClockManager {
  import opened CInt
  import opened ClockDemand

  class Manager {
    const list: seq<ClockType>
    const ext: array<nat>
    var idleType: nat
    /** The argument of the last call that set the system clock, in MHz. */
    var sys: nat

    ghost predicate Valid()
      reads this, ext
    {
      ext.Length == SLOTS && Table(ext[..])
    }

    function View(): Clocks
      reads this, ext
    {
      Clocks(ext[..], idleType, sys)
    }

    constructor (list: seq<ClockType>, sys: nat)
      ensures Valid() && this.list == list && View() == Clocks(seq(SLOTS, _ => 0), 0, sys) && fresh(ext)
    {
      this.list := list;
      ext := new nat[SLOTS](_ => 0);
      idleType := 0;
      this.sys := sys;
      new;
      assert ext[..] == seq(SLOTS, _ => 0);
    }

    /** First slot holding a value. */
    method Find(t: nat) returns (i: nat)
      ensures i == IndexOf(ext[..], t)
    {
      i := 0;
      while i < ext.Length
        invariant i <= ext.Length
        invariant forall k :: 0 <= k < i ==> ext[k] != t
      {
        if ext[i] == t {
          return;
        }
        i := i + 1;
      }
    }

    /** `clock_ext_push`. */
    method ExtPush(kind: nat) returns (ok: bool)
      requires Valid() && kind <= TYPES
      modifies ext
      ensures Valid() && (ext[..], ok) == Push(old(ext[..]), kind)
    {
      hide IndexOf;
      PushIsSetAdd(ext[..], kind);
      var i := Find(kind);
      if i < ext.Length {
        assert ext[i] in ext[..];
        return false;
      }
      i := Find(0);
      if i < ext.Length {
        ext[i] := kind;
        return true;
      }
      return false;
    }

    /** `clock_ext_pop`. */
    method ExtPop(kind: nat) returns (ok: bool)
      requires Valid()
      modifies ext
      ensures Valid() && (ext[..], ok) == Pop(old(ext[..]), kind)
    {
      PopIsSetRemove(ext[..], kind);
      var i := Find(kind);
      if i < ext.Length {
        ext[i] := 0;
        return true;
      }
      return false;
    }

    /** `clock_match`. */
    static method Match(clk: nat) returns (f: nat)
      ensures f == MatchFrom(clk, 0) && Covers(f, clk)
    {
      MatchCovers(clk, 0);
      var i := 0;
      while i < |CLOCK_TB|
        invariant i <= |CLOCK_TB|
        invariant MatchFrom(clk, 0) == if i < |CLOCK_TB| then MatchFrom(clk, i) else 192
      {
        if clk <= CLOCK_TB[i] {
          return CLOCK_TB[i];
        }
        i := i + 1;
      }
      return CLOCK_TB[|CLOCK_TB| - 1];
    }

    /** `clock_idle_selet`. */
    method IdleSelect(kind: nat) returns (clk: nat)
      ensures clk == IdleClock(list, kind)
    {
      var i := 0;
      while i < |list|
        invariant i <= |list|
        invariant IdleClock(list, kind) == IdleClock(list[i..], kind)
      {
        if kind == list[i].id {
          return U8(list[i].clock);
        }
        i := i + 1;
      }
      return 24;
    }

    /** The clocks of one type's rows, added to the sum so far. */
    method AddRows(kind: nat, sum: nat) returns (next: nat)
      requires sum < TWO32
      ensures next == U32(sum + TypeClock(list, kind))
    {
      next := sum;
      var j := 0;
      while j < |list|
        invariant j <= |list|
        invariant next == U32(sum + TypeClock(list[..j], kind))
      {
        assert list[..j + 1][..j] == list[..j];
        if kind == list[j].id {
          next := U32(next + list[j].clock);
        }
        j := j + 1;
      }
      assert list[..j] == list;
    }

    /** `clock_ext_cal`. */
    method ExtCal() returns (clk: nat)
      ensures clk == ExtClock(list, ext[..])
    {
      var sum := 0;
      var i := 0;
      while i < ext.Length
        invariant i <= ext.Length
        invariant sum == U32(Total(list, ext[..i]))
      {
        assert ext[..i + 1][..i] == ext[..i];
        if ext[i] != 0 {
          sum := AddRows(ext[i], sum);
        }
        i := i + 1;
      }
      assert ext[..i] == ext[..];
      clk := U16(sum);
    }

    /** `clock_cur_cal`. */
    method CurCal() returns (clk: nat)
      ensures clk == Frequency(list, ext[..], idleType)
    {
      hide IdleClock, ExtClock, MatchFrom, Covers, U16, U32;
      var idle := IdleSelect(idleType);
      var sum := ExtCal();
      clk := Match(U16(U32(idle + sum)));
    }

    /** `clock_idle`. */
    method Idle(kind: nat)
      requires Valid()
      modifies this
      ensures Valid() && View() == Step(list, old(View()), Op.Idle(kind))
    {
      hide Frequency;
      idleType := kind;
      sys := CurCal();
    }

    /** `clock_add_set`. */
    method AddSet(kind: nat)
      requires Valid()
      modifies this, ext
      ensures Valid() && View() == Step(list, old(View()), Op.Add(kind))
    {
      hide Push, Frequency;
      UnchangedWhenRefused(ext[..], U8(kind));
      var ok := ExtPush(U8(kind));
      if !ok {
        return;
      }
      sys := CurCal();
    }

    /** `clock_remove_set`. */
    method RemoveSet(kind: nat)
      requires Valid()
      modifies this, ext
      ensures Valid() && View() == Step(list, old(View()), Op.Remove(kind))
    {
      hide Pop, Frequency;
      UnchangedWhenRefused(ext[..], U8(kind));
      var ok := ExtPop(U8(kind));
      if !ok {
        return;
      }
      sys := CurCal();
    }

    /** `clock_add` leaves the system clock to a later `clock_set_cur`. */
    method Add(kind: nat)
      requires Valid()
      modifies ext
      ensures Valid() && ext[..] == Push(old(ext[..]), U8(kind)).0
    {
      var _ := ExtPush(U8(kind));
    }

    /** `clock_remove` likewise. */
    method Remove(kind: nat)
      requires Valid()
      modifies ext
      ensures Valid() && ext[..] == Pop(old(ext[..]), U8(kind)).0
    {
      var _ := ExtPop(U8(kind));
    }

    /** `clock_set_cur`: whatever was deferred, the system clock is settled again. */
    method SetCur()
      requires Valid()
      modifies `sys
      ensures Valid() && Settled(list, View()) && View() == old(View()).(sys := sys)
    {
      sys := CurCal();
    }
  }
}
