/** The touch driver's per-channel arrays, updated in place by each measurement. */
module Plcnt {
  import opened CInt
  import opened TouchFilter

  const CH_MAX := 3

  class CtmKeys {
    const cfg: Config
    const cntBuf: array<nat>
    const releaseBuf: array<int>
    const released: array<bool>
    const initCnt: array<nat>

    function View(ch: nat): Chan
      requires ch < cntBuf.Length && ch < releaseBuf.Length && ch < released.Length && ch < initCnt.Length
      reads cntBuf, releaseBuf, released, initCnt
    {
      Chan(cntBuf[ch], releaseBuf[ch], released[ch], initCnt[ch])
    }

    ghost predicate Shaped() {
      cntBuf.Length == releaseBuf.Length == released.Length == initCnt.Length == CH_MAX && cntBuf != initCnt
    }

    /** `plcnt_init`: every key released, sixteen settling samples. */
    constructor (cfg: Config)
      ensures Shaped() && this.cfg == cfg
      ensures forall ch :: 0 <= ch < CH_MAX ==> View(ch) == Chan(0, 0, true, 0x10)
    {
      this.cfg := cfg;
      cntBuf := new nat[CH_MAX](_ => 0);
      releaseBuf := new int[CH_MAX](_ => 0);
      released := new bool[CH_MAX](_ => true);
      initCnt := new nat[CH_MAX](_ => 0x10);
    }

    method SettleChannel(res: nat, ch: nat)
      requires Shaped() && ch < CH_MAX
      modifies cntBuf, releaseBuf, initCnt
      ensures View(ch) == Settle(old(View(ch)), res)
      ensures forall k :: 0 <= k < CH_MAX && k != ch ==> View(k) == old(View(k))
    {
      if initCnt[ch] != 0 {
        initCnt[ch] := initCnt[ch] - 1;
        cntBuf[ch] := res;
        releaseBuf[ch] := res * 128;
      }
    }

    /** The baseline movement for a difference, by key state. */
    method DriftFor(diff: int, isReleased: bool) returns (drift: int)
      ensures drift == Drift(cfg, isReleased, diff)
    {
      drift := diff;
      if isReleased {
        if drift >= 0 {
          if drift < RISE_LIMIT / 8 {
            drift := S16(drift * 8);
          } else {
            drift := RISE_LIMIT;
          }
        } else if drift >= FALL_LIMIT {
        } else {
          drift := drift / 8;
        }
      } else {
        if drift <= cfg.release1 {
          drift := drift / 8;
        } else {
          drift := 0;
        }
      }
    }

    /** `ctm_irq`. */
    method CtmIrq(res: nat, ch: nat)
      requires Shaped() && ch < CH_MAX && res < TWO16
      modifies cntBuf, releaseBuf, released, initCnt
      ensures View(ch) == Update(cfg, old(View(ch)), res)
      ensures forall k :: 0 <= k < CH_MAX && k != ch ==> View(k) == old(View(k))
    {
      hide Settle, Drift;
      SettleChannel(res, ch);
      ghost var settled := View(ch);
      var smooth := cntBuf[ch];
      var next := U16(smooth - smooth);
      next := U16(next + res);
      cntBuf[ch] := next;
      smooth := U16(smooth + next);
      smooth := smooth / 2;
      var diff := S16(smooth - U16(releaseBuf[ch] / 128));
      assert next == res && diff == Difference(settled, res);
      hide U16, S16, Difference;
      var drift := DriftFor(diff, released[ch]);
      releaseBuf[ch] := releaseBuf[ch] + drift;
      if diff <= cfg.press {
        released[ch] := false;
      } else if diff >= cfg.release0 {
        released[ch] := true;
      }
    }

    /** `get_plcnt_value`: the first key held among the first `len`, if any. */
    method GetValue(len: nat) returns (key: nat)
      requires Shaped() && len <= CH_MAX
      ensures key <= len
      ensures forall k :: 0 <= k < key ==> released[k]
      ensures key < len ==> !released[key]
    {
      key := 0;
      while key < len
        invariant key <= len && forall k :: 0 <= k < key ==> released[k]
      {
        if !released[key] {
          return;
        }
        key := key + 1;
      }
    }
  }
}
