/** `createStopSignal` of web/games/base.js: a flag that can be raised and never lowered. */
module GameBase {

  class StopSignal {
    var stopped: bool

    constructor ()
      ensures !stopped
    {
      stopped := false;
    }

    /** `stop()`: raise the flag; calling it again changes nothing. */
    method Stop()
      modifies this
      ensures stopped
    {
      stopped := true;
    }

    /** The `stopped` getter. */
    method Stopped() returns (b: bool)
      ensures b == stopped
    {
      b := stopped;
    }
  }

  /** A client: once stopped, the signal stays stopped through further stops and reads. */
  method StopIsSticky(s: StopSignal)
    modifies s
    ensures s.stopped
  {
    s.Stop();
    var b := s.Stopped();
    assert b;
    s.Stop();
    b := s.Stopped();
    assert b;
  }
}
