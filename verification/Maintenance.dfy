/**
 The admission gate as an object whose methods update its fields. Each method leaves the fields that
 the corresponding step of `MaintenanceRuns` prescribes for the process the object is part of.
 */
module Maintenance {
  import opened Wrappers
  import Spec = MaintenanceRuns
  import opened MaintenanceRuns

  /** `CoreMaintenance`, with the event loop's timers and the clock reading passed in. */
  class CoreMaintenance {
    var gate: Gate
    var timers: map<TimerId, Timer>
    var drawn: nat

    /** The process this object is part of. */
    ghost function In(p: Process): Process
      reads this
    {
      p.(gate := gate, timers := timers, drawn := drawn)
    }

    method Enter(ghost p: Process, op: OperationId) returns (admitted: bool)
      requires In(p) == p && op !in p.started && p.running <= p.started
      modifies `gate
      ensures In(Spec.Enter(p, op)) == Spec.Enter(p, op)
      ensures admitted <==> op in Spec.Enter(p, op).running
      ensures admitted <==> !old(Paused(gate))
    {
      if Paused(gate) { return false; }
      gate := gate.(active := gate.active + 1);
      return true;
    }

    method ClearTimer()
      modifies `timers
      ensures timers == Cleared(old(timers), gate.timer)
    {
      if gate.timer.Some? { timers := timers - {gate.timer.value}; }
    }

    method SetTimer(lease: Token, now: int, delay: int)
      modifies this
      ensures timers == old(timers)[old(drawn) := Timer(now + delay, lease)] && drawn == old(drawn) + 1
      ensures gate == old(gate).(timer := Some(old(drawn)), expiresAt := Some(now + delay))
    {
      timers := timers[drawn := Timer(now + delay, lease)];
      gate := gate.(timer := Some(drawn), expiresAt := Some(now + delay));
      drawn := drawn + 1;
    }

    method ResumeAny(ghost p: Process)
      requires In(p) == p
      modifies this
      ensures In(Resumed(p)) == Resumed(p)
    {
      ClearTimer();
      gate := gate.(token := None, expiresAt := None, phase := Running);
      if gate.waitsAborted { gate := gate.(waitsAborted := false); }
    }

    method Quiesce(ghost p: Process, token: Option<Token>, newToken: Token, now: int, idle: bool) returns (ok: bool)
      requires In(p) == p && p.now == now && newToken !in p.issued
      modifies this
      ensures In(Spec.Quiesce(p, token, newToken, idle)) == Spec.Quiesce(p, token, newToken, idle)
      ensures ok == if token.None? then !Paused(p.gate) else p.gate.token == token && Paused(p.gate)
    {
      var lease := newToken;
      if token.None? {
        if Paused(gate) { return false; }
        gate := gate.(token := Some(newToken), phase := Draining, waitsAborted := true);
      } else {
        if token != gate.token || !Paused(gate) { return false; }
        lease := token.value;
      }
      ClearTimer();
      SetTimer(lease, now, 30_000);
      gate := gate.(phase := if gate.active == 0 && idle then Ready else Draining);
      return true;
    }

    method BeginPrepare(ghost p: Process, ghost call: CallId, newToken: Token, now: int, drain: int, lease: int)
        returns (deadline: Option<int>)
      requires In(p) == p && p.now == now && newToken !in p.issued && call !in p.polling
      modifies this
      ensures In(Spec.BeginPrepare(p, call, newToken, drain, lease))
              == Spec.BeginPrepare(p, call, newToken, drain, lease)
      ensures deadline.Some? ==>
                Spec.BeginPrepare(p, call, newToken, drain, lease).polling
                == p.polling[call := Preparation(newToken, deadline.value)]
    {
      if drain < 1 || drain > 10_000 || lease < 100 || lease > 60_000 { return None; }
      if Paused(gate) { return None; }
      gate := gate.(token := Some(newToken), phase := Draining, waitsAborted := true);
      SetTimer(newToken, now, lease);
      return Some(if now + drain < gate.expiresAt.value then now + drain else gate.expiresAt.value);
    }

    /** One turn of the loop: `None` while the drain goes on, else whether the core is ready. */
    method Poll(ghost p: Process, ghost call: CallId, own: Preparation, now: int, idle: bool)
        returns (ready: Option<bool>)
      requires In(p) == p && p.now == now && call in p.polling && p.polling[call] == own
      modifies this
      ensures In(Spec.Poll(p, call, idle)) == Spec.Poll(p, call, idle)
      ensures ready.None? <==> call in Spec.Poll(p, call, idle).polling
      ensures ready == Some(true) ==>
                gate.phase.Ready? && gate.active == 0 && gate.token == Some(own.token) && now < own.deadline
    {
      if gate.token != Some(own.token) || now >= own.deadline {
        if gate.token == Some(own.token) { ResumeAny(p); }
        return Some(false);
      }
      if gate.active == 0 && idle {
        gate := gate.(phase := Ready);
        return Some(true);
      }
      return None;
    }

    method Callback(ghost p: Process)
      requires In(p) == p
      modifies this
      ensures In(Spec.Callback(p)) == Spec.Callback(p)
    {
      if gate.phase.Ready? { ResumeAny(p); }
    }

    method Resume(ghost p: Process, token: Token) returns (ok: bool)
      requires In(p) == p
      modifies this
      ensures In(Spec.Resume(p, token)) == Spec.Resume(p, token) && ok == (p.gate.token == Some(token))
    {
      if gate.token != Some(token) { return false; }
      ResumeAny(p);
      return true;
    }

    /** Whether the process exits; the check and the exit have no turn of the event loop between them. */
    method Commit(ghost p: Process, token: Token, now: int, idle: bool) returns (exits: bool)
      requires In(p) == p && p.now == now && !p.exited
      modifies this
      ensures In(Spec.Commit(p, token, idle)) == Spec.Commit(p, token, idle)
      ensures exits == Spec.Commit(p, token, idle).exited
    {
      if || gate.token != Some(token) || !gate.phase.Ready? || gate.expiresAt.None? || now >= gate.expiresAt.value
         || gate.active != 0 || !idle {
        if gate.token == Some(token) { ResumeAny(p); }
        return false;
      }
      return true;
    }
  }
}
