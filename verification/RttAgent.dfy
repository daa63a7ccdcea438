/** The round trip time estimator of drafts/tcp.cc in its own form: the t_ fields of
    TcpAgent, updated in place. */
module RttAgent {
  import opened Words
  import opened RttEstimator

  class RttState {
    const cfg: Config
    ghost const start: Estimator
    ghost var events: seq<Event>
    var rtt: int
    var srtt: int
    var rttvar: int
    var rtxcur: real
    var backoff: int

    ghost function View(): Estimator
      reads this
    {
      Estimator(cfg, rtt, srtt, rttvar, rtxcur, backoff)
    }

    /** The object has handled the events, and nothing else. */
    ghost predicate Valid()
      reads this
    {
      View() == Run(start, events)
    }

    /** rtt_init. */
    constructor (cfg: Config, rttvar: nat, rtxcur: real)
      ensures View() == Init(cfg, rttvar, rtxcur)
      ensures start == View() && Valid() && events == []
    {
      start, events := Init(cfg, rttvar, rtxcur), [];
      this.cfg, this.rttvar, this.rtxcur := cfg, rttvar, rtxcur;
      rtt, srtt, backoff := 0, 0, 1;
    }

    /** The smoothing inside rtt_update. */
    method SmoothIn()
      modifies this
      ensures (srtt, rttvar) == Smooth(old(srtt), old(rttvar), rtt)
      ensures rtt == old(rtt) && rtxcur == old(rtxcur) && backoff == old(backoff)
    {
      hide S16;
      if srtt == 0 {
        srtt, rttvar := 8 * rtt, 2 * rtt;
        return;
      }
      var delta := S16(rtt - srtt / 8);
      srtt := ClampToOne(srtt + delta);
      if delta < 0 {
        delta := S16(0 - delta);
      }
      delta := S16(delta - rttvar / 4);
      rttvar := ClampToOne(rttvar + delta);
    }

    method RttUpdate(ticks: int)
      modifies this
      ensures View() == Update(old(View()), ticks)
    {
      hide Smooth, TimeoutTicks;
      rtt := if ticks < 1 then 1 else ticks;
      SmoothIn();
      rtxcur := TimeoutTicks(srtt, rttvar) as real * cfg.tick;
    }

    method RttTimeout() returns (r: Rto)
      ensures r == Timeout(View())
    {
      var factor := if cfg.rfc2988 && rtxcur < cfg.minRto then cfg.minRto else rtxcur;
      assert factor == Base(View());
      hide Base;
      var t := factor * backoff as real;
      if !cfg.rfc2988 && t < cfg.minRto {
        t := cfg.minRto;
      }
      if t > cfg.maxRto {
        t := cfg.maxRto;
      }
      if t < 2.0 * cfg.tick {
        if t < 0.0 {
          return Exit;
        }
        t := 2.0 * cfg.tick;
      }
      r := Seconds(t);
    }

    method RttBackoff()
      modifies this
      ensures View() == BackOff(old(View()))
    {
      hide Timeout, S32;
      var doubles := backoff < 64;
      if !doubles && cfg.rfc2988 {
        var r := RttTimeout();
        doubles := r.Seconds? && r.time < cfg.maxRto;
      }
      if doubles {
        backoff := S32(2 * backoff);
      }
      if backoff > 8 {
        rttvar := rttvar + srtt / 8;
        srtt := 0;
      }
    }

    // ----- What the sender asks of it, with the history -----

    method NewSample(ticks: int)
      requires Valid()
      modifies this
      ensures Valid() && events == old(events) + [Sample(ticks)]
    {
      ghost var es := events;
      RttUpdate(ticks);
      Append(es, Sample(ticks));
    }

    method StopBackoff()
      requires Valid()
      modifies this
      ensures Valid() && events == old(events) + [EndBackoff]
    {
      ghost var es := events;
      backoff := 1;
      Append(es, EndBackoff);
    }

    method RetransmissionTimeout()
      requires Valid()
      modifies this
      ensures Valid() && events == old(events) + [Backoff]
    {
      ghost var es := events;
      RttBackoff();
      Append(es, Backoff);
    }

    ghost method Append(es: seq<Event>, e: Event)
      requires View() == Step(Run(start, es), e)
      modifies `events
      ensures Valid() && events == es + [e]
    {
      events := es + [e];
      assert events[..|events| - 1] == es;
      hide Step;
    }

    /** With all samples in a band, so is the smoothed time, but for a clobber. */
    lemma StaysInBand(rttvar0: nat, rtxcur0: real, lo: int, hi: int)
      requires Valid() && start == Init(cfg, rttvar0, rtxcur0)
      requires 1 <= lo <= hi < 0x8000 && InBand(events, lo, hi)
      ensures Bounded(View(), lo, hi, rttvar0) && (srtt == 0 || lo <= srtt / 8 <= hi)
    {
      RunIsBounded(cfg, rttvar0, rtxcur0, events, lo, hi);
      hide Run, Bounded;
    }
  }
}
