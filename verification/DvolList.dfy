/** The list of voice handles, updated in place, each proved to follow `Ducking`. */
module DvolList {
  import opened Ducking

  class Handle {
    var vol: nat
    var volMax: nat
    var volBk: int
    var volTarget: nat
    var volFade: int
    var toggle: bool

    function View(): Voice
      reads this
    {
      Voice(vol, volMax, volBk, volTarget)
    }

    constructor (vol: nat, volMax: nat)
      requires 0 < volMax
      ensures View() == Ducking.Open(vol, volMax) && volFade == volTarget && toggle
    {
      var x := if vol > volMax then volMax else vol;
      LevelInTable(x, volMax);
      this.vol, this.volMax, volBk := x, volMax, -1;
      volTarget := TABLE[Level(x, volMax)];
      volFade := TABLE[Level(x, volMax)];
      toggle := true;
    }

    method DuckDown()
      requires Duckable(View())
      modifies this`vol, this`volBk, this`volTarget
      ensures View() == Duck(old(View()))
    {
      hide Target;
      volBk := vol;
      if vol >= 14 {
        vol := vol - 5;
      } else if vol >= 10 {
        vol := vol - 3;
      } else if vol >= 6 {
        vol := vol - 1;
      } else {
        volBk := -1;
        return;
      }
      Retarget();
    }

    /** The table gain of the present volume. */
    method Retarget()
      requires InTable(vol, volMax)
      modifies this`volTarget
      ensures volTarget == Target(vol, volMax)
    {
      hide Level;
      volTarget := TABLE[Level(vol, volMax)];
    }

    method BringBack()
      requires Restorable(View())
      modifies this`vol, this`volBk, this`volTarget
      ensures View() == Restore(old(View()))
    {
      if volBk >= 0 {
        vol := volBk;
        volTarget := TABLE[Level(volBk, volMax)];
        volBk := -1;
      }
    }

    /** `audio_digital_vol_set`. */
    method Set(v: nat)
      requires 0 < volMax
      modifies this`vol, this`volBk, this`volTarget
      ensures View() == if toggle then SetVol(old(View()), v) else old(View())
    {
      if !toggle {
        return;
      }
      vol := if v > volMax then volMax else v;
      if volBk != -1 {
        volBk := v;
      }
      LevelInTable(vol, volMax);
      Retarget();
    }
  }

  class VoiceList {
    var list: seq<Handle>
    var fadeOut: bool

    /** Each voice is linked once. */
    ghost predicate Linked()
      reads this
    {
      forall i, j :: 0 <= i < j < |list| ==> list[i] != list[j]
    }

    ghost predicate AllValid()
      reads this, list
    {
      forall h :: h in list ==> Valid(h.View())
    }

    constructor ()
      ensures Linked() && AllValid() && list == []
    {
      list, fadeOut := [], false;
    }

    /** `audio_digital_vol_open`: the new voice goes to the head; the others duck if fading is on. */
    method Open(vol: nat, volMax: nat) returns (h: Handle)
      requires Linked() && 0 < volMax
      requires fadeOut ==> forall o :: o in list ==> Duckable(o.View())
      modifies this`list, list
      ensures Linked() && fresh(h) && list == [h] + old(list) && (old(AllValid()) ==> AllValid())
      ensures h.View() == Ducking.Open(vol, volMax)
      ensures forall o :: o in old(list) ==> o.View() == if fadeOut then Duck(old(o.View())) else old(o.View())
    {
      hide Ducking.Open;
      h := new Handle(vol, volMax);
      ghost var others := list;
      list := [h] + list;
      assert list[1..] == others;
      if fadeOut {
        DuckOthers(h, others);
      }
    }

    /** The loop over the list, passing over the new voice at its head. */
    method DuckOthers(h: Handle, ghost others: seq<Handle>)
      requires Linked() && list == [h] + others && forall o :: o in others ==> Duckable(o.View())
      modifies list
      ensures Linked() && h.View() == old(h.View())
      ensures forall o :: o in others ==> o.View() == Duck(old(o.View()))
    {
      assert list[0] == h && list[1..] == others;
      assert h !in others && forall i, j :: 0 <= i < j < |others| ==> others[i] != others[j];
      hide Duck, Duckable;
      var i := 0;
      while i < |list|
        invariant 0 <= i <= |list| && list == [h] + others
        invariant h.View() == old(h.View())
        invariant forall k :: 0 <= k < |others| ==>
          others[k].View() == if k + 1 < i then Duck(old(others[k].View())) else old(others[k].View())
      {
        if list[i] != h {
          assert list[i] == others[i - 1];
          list[i].DuckDown();
        }
        i := i + 1;
      }
    }

    /** `audio_digital_vol_close`: unlink, then bring the others back. */
    method Close(h: Handle)
      requires Linked() && h in list && forall o :: o in list && o != h ==> Restorable(o.View())
      modifies this`list, list
      ensures Linked() && h !in list && (old(AllValid()) ==> AllValid())
      ensures forall o :: o in old(list) && o != h ==> o in list && o.View() == Restore(old(o.View()))
      ensures forall o :: o in list ==> o in old(list)
    {
      var at := Find(h);
      ghost var was := list;
      list := list[..at] + list[at + 1..];
      ghost var rest := list;
      assert forall o :: o in was && o != h ==> o in rest by {
        assert was == was[..at] + [h] + was[at + 1..];
      }
      assert forall k :: 0 <= k < |rest| ==> rest[k] == was[if k < at then k else k + 1];
      hide Restore, Restorable;
      BringAllBack();
    }

    method BringAllBack()
      requires Linked() && forall o :: o in list ==> Restorable(o.View())
      modifies list
      ensures Linked()
      ensures forall o :: o in list ==> o.View() == Restore(old(o.View()))
    {
      ghost var rest := list;
      hide Restore, Restorable;
      var i := 0;
      while i < |list|
        invariant 0 <= i <= |list| && list == rest
        invariant forall k :: 0 <= k < |rest| ==>
          rest[k].View() == if k < i then Restore(old(rest[k].View())) else old(rest[k].View())
      {
        assert list[i] == rest[i];
        list[i].BringBack();
        i := i + 1;
      }
    }

    method Find(h: Handle) returns (i: nat)
      requires h in list
      ensures i < |list| && list[i] == h
    {
      i := 0;
      while list[i] != h
        invariant i < |list| && h in list[i..]
        decreases |list| - i
      {
        i := i + 1;
      }
    }
  }
}
