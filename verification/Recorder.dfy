/** The ffmpeg process wrapper. Spawning and signalling are answered by the operating system. */
module Recorders {
  import opened BotTypes

  class ScreenRecorder {
    var running: bool
    var hasProcess: bool    // cmd and cmd.Process are set
    var startedAt: int
    ghost var calls: seq<Call>    // every call so far, whatever came of it

    ghost predicate Valid()
      reads this
    {
      running ==> hasProcess
    }

    constructor ()
      ensures Valid() && !running && calls == []
    {
      running, hasProcess, startedAt := false, false, 0;
      calls := [];
    }

    /** `spawned` is whether the process could be started. A second Start is refused. */
    method Start(spawned: bool, now: int) returns (ok: bool)
      requires Valid()
      modifies this
      ensures Valid()
      ensures ok <==> !old(running) && spawned
      ensures running <==> old(running) || ok
      ensures startedAt == if ok then now else old(startedAt)
      ensures calls == old(calls) + [Call.Start]
    {
      calls := calls + [Call.Start];
      if running {
        return false;
      }
      hasProcess := spawned;
      if !spawned {
        return false;
      }
      running, startedAt := true, now;
      return true;
    }

    /** Stopping never fails; waiting for the process is assumed to return. */
    method Stop()
      requires Valid()
      modifies this`running, this`calls
      ensures Valid() && !running && calls == old(calls) + [Call.Stop]
    {
      calls := calls + [Call.Stop];
      if !running || !hasProcess {
        return;
      }
      running := false;
    }

    /** Pause and Resume only signal the process; without one they do nothing and succeed. */
    method Signal(delivered: bool) returns (ok: bool)
      requires Valid()
      ensures ok <==> !running || delivered
    {
      if !running || !hasProcess {
        return true;
      }
      return delivered;
    }

    method Pause(delivered: bool) returns (ok: bool)
      requires Valid()
      modifies this`calls
      ensures Valid() && calls == old(calls) + [Call.Pause] && (ok <==> !running || delivered)
    {
      calls := calls + [Call.Pause];
      ok := Signal(delivered);
    }

    method Resume(delivered: bool) returns (ok: bool)
      requires Valid()
      modifies this`calls
      ensures Valid() && calls == old(calls) + [Call.Resume] && (ok <==> !running || delivered)
    {
      calls := calls + [Call.Resume];
      ok := Signal(delivered);
    }
  }
}
