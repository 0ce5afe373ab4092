/** The charger driver's 5 V detection, updated in place by each timer tick. */
module Charge {
  import opened CInt
  import opened ChargerDetect

  class Charger {
    const offFilter: nat
    var inNormalCnt: nat
    var inErrCnt: nat
    var offCnt: nat
    var timer: bool
    var flag: nat
    var online: bool

    function View(): Detector
      reads this
    {
      Detector(inNormalCnt, offCnt, inErrCnt, timer, flag, online)
    }

    /** `charge_init`: with a supply present sampling starts at once, otherwise the zone is known to be OFF. */
    constructor (offFilter: nat, supply: bool)
      ensures this.offFilter == offFilter
      ensures View() == Detector(0, 0, 0, supply, if supply then 0 else FlagOf(Off), false) && Inv(offFilter, View())
    {
      this.offFilter := offFilter;
      inNormalCnt, inErrCnt, offCnt := 0, 0, 0;
      timer := supply;
      flag := if supply then 0 else FlagOf(Off);
      online := false;
    }

    /** End the session with a zone. */
    method Settle(zone: Zone) returns (events: seq<Event>)
      modifies `timer, `flag, `online
      ensures !timer && flag == FlagOf(zone) && online == !zone.Off?
      ensures events == Due(offFilter, old(flag), zone)
    {
      events := [];
      online := !zone.Off?;
      timer := false;
      if flag != FlagOf(zone) {
        flag := FlagOf(zone);
        events := Announce(offFilter, zone);
      }
    }

    /** `ldo5v_detect`. */
    method Ldo5vDetect(aboveBattery: bool, abovePlugOut: bool) returns (events: seq<Event>)
      requires timer
      modifies this
      ensures var zone := if aboveBattery then In else if !abovePlugOut then Off else Err;
        var (after, log) := Next(offFilter, old(View()), Tick(zone));
        View() == after && events == if log == [] then [] else log[0].events
    {
      events := [];
      if aboveBattery {
        offCnt := 0;
        inErrCnt := 0;
        if inNormalCnt < 50 {
          inNormalCnt := U16(inNormalCnt + 1);
        } else {
          inNormalCnt := 0;
          events := Settle(In);
        }
      } else if !abovePlugOut {
        inNormalCnt := 0;
        inErrCnt := 0;
        if offCnt < offFilter + 10 {
          offCnt := U16(offCnt + 1);
        } else {
          offCnt := 0;
          events := Settle(Off);
        }
      } else {
        inNormalCnt := 0;
        offCnt := 0;
        if inErrCnt < 50 {
          inErrCnt := U16(inErrCnt + 1);
        } else {
          inErrCnt := 0;
          events := Settle(Err);
        }
      }
    }

    /** `sub_wakeup_isr`. */
    method SubWakeupIsr()
      modifies `timer
      ensures View() == Next(offFilter, old(View()), Wake).0
    {
      if !timer {
        timer := true;
      }
    }
  }
}
