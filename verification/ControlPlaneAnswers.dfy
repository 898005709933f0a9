/**
 * What becomes of a stored answer, over every run: who may join it, and what it may be lost to.
 */
module ControlPlaneAnswers {
  import opened CloudTypes
  import opened ControlPlane
  import opened ControlPlaneTheorems
  import I = IdempotencyRegistry

  /**
   * A request that is let in joins the entry of its key exactly when that entry has not lapsed: it
   * then waits for the same answer and starts no work. Otherwise it does the work itself, under a
   * residency that nobody has had.
   */
  lemma JoinsExactly(run: seq<World>, steps: seq<Step>, i: nat)
    requires IsRun(run, steps) && i < |steps| && steps[i].OnRegistry? && steps[i].registry.Join?
    ensures var s, m, w := steps[i].registry, run[i].registry.entries, run[i + 1];
            && s.r in w.requests && s.key in w.registry.entries
            && if s.key in m && !I.Lapsed(m[s.key], s.now) then
                 && m[s.key].identity == s.identity
                 && w.requests[s.r].stage == Waiting(s.key, m[s.key].residency, Awake)
                 && w.requests[s.r].worker.Idle?
                 && w.registry.entries[s.key] == m[s.key].(waiters := m[s.key].waiters + 1)
               else
                 && w.requests[s.r].stage == Waiting(s.key, |run[i].registry.answers|, Awake)
                 && w.requests[s.r].worker.Working? && w.requests[s.r].worker.residency == |run[i].registry.answers|
                 && w.registry.entries[s.key].state.InFlight?
  {
    RunStep(run, steps, i);
    hide IsRun;
    JoinTakes(run[i], steps[i].registry);
  }

  lemma JoinTakes(w: World, s: RegistryStep)
    requires s.Join? && RegistryEnabled(w, s)
    ensures var m, d := w.registry.entries, RegistryApply(w, s);
            && s.r in d.requests && s.key in d.registry.entries
            && if s.key in m && !I.Lapsed(m[s.key], s.now) then
                 && m[s.key].identity == s.identity
                 && d.requests[s.r].stage == Waiting(s.key, m[s.key].residency, Awake)
                 && d.requests[s.r].worker.Idle?
                 && d.registry.entries[s.key] == m[s.key].(waiters := m[s.key].waiters + 1)
               else
                 && d.requests[s.r].stage == Waiting(s.key, |w.registry.answers|, Awake)
                 && d.requests[s.r].worker.Working? && d.requests[s.r].worker.residency == |w.registry.answers|
                 && d.registry.entries[s.key].state.InFlight?
  {
    TrimsKey(w.registry.entries, s.trimmed, s.now, s.key, s.identity.StorageBytes());
    hide I.Trims, I.Evicted, I.Crowded, I.Lapsed;
  }

  lemma TrimsKey(m: I.Entries, trimmed: I.Entries, now: I.Time, key: I.Key, request: nat)
    requires I.Trims(m, trimmed, now, key, request)
    ensures key in trimmed <==> key in m && !I.Lapsed(m[key], now)
    ensures key in trimmed ==> trimmed[key] == m[key]
  {
    hide I.Lapsed, I.LostToRoom;
  }

  // ----- answers are kept

  /** The answer stored under `key` is still the one that was stored there. */
  predicate StillAnswers(before: I.Entries, after: I.Entries, key: I.Key) {
    && key in before && key in after
    && after[key].residency == before[key].residency && after[key].state == before[key].state
  }

  /** Why a stored answer may go: its time, its session, room, or shutdown. */
  ghost predicate MayLose(w: World, step: Step, key: I.Key)
    requires key in w.registry.entries && w.registry.entries[key].state.Complete?
  {
    var m, e := w.registry.entries, w.registry.entries[key];
    match step
    case OnRegistry(s) =>
      (match s
       case Join(_, k, identity, now, trimmed) =>
         || I.Lapsed(e, now)
         || (!I.Present(m, k, now) && e.waiters == 0 && I.LostToRoom(m, trimmed, now, identity.StorageBytes()))
       case RefuseJoin(_, k, identity, now, trimmed) =>
         || I.Lapsed(e, now)
         || (!I.Present(m, k, now) && e.waiters == 0 && I.LostToRoom(m, trimmed, now, identity.StorageBytes()))
       case Complete(r, response, disposition, number, trimmed) =>
         && e.waiters == 0 && r in w.requests && w.requests[r].worker.Working?
         && I.LostToStorage(I.Answered(m, w.requests[r].worker.key, response, disposition, number), trimmed)
       case Cleanup(r) =>
         && e.waiters == 0 && r in w.requests && w.requests[r].lease.Some?
         && e.state.disposition == I.RemoveAfterAuthSession(w.requests[r].lease.value.session)
       case _ => false)
    case OnShutdown(s) => s.ClearRegistry?
    case _ => false
  }

  lemma JoinLoses(w: World, s: RegistryStep, key: I.Key)
    requires (s.Join? || s.RefuseJoin?) && RegistryEnabled(w, s)
    requires key in w.registry.entries && w.registry.entries[key].state.Complete?
    requires !StillAnswers(w.registry.entries, RegistryApply(w, s).registry.entries, key)
    ensures MayLose(w, OnRegistry(s), key)
  {
    TrimsKey(w.registry.entries, s.trimmed, s.now, s.key, s.identity.StorageBytes());
    TrimLoses(w.registry.entries, s.trimmed, s.now, s.key, s.identity.StorageBytes(), key);
    hide I.Trims, I.Evicted, I.Crowded, I.Lapsed, I.LostToRoom, I.Present;
  }

  lemma TrimLoses(m: I.Entries, trimmed: I.Entries, now: I.Time, k: I.Key, request: nat, key: I.Key)
    requires I.Trims(m, trimmed, now, k, request) && key in m
    ensures key in trimmed ==> trimmed[key] == m[key]
    ensures key !in trimmed ==>
              || I.Lapsed(m[key], now)
              || (!I.Present(m, k, now) && m[key].waiters == 0 && I.LostToRoom(m, trimmed, now, request))
  {
    hide I.Lapsed, I.LostToRoom, I.Present;
  }

  lemma CompletionLoses(w: World, s: RegistryStep, key: I.Key)
    requires s.Complete? && RegistryEnabled(w, s)
    requires key in w.registry.entries && w.registry.entries[key].state.Complete?
    requires !StillAnswers(w.registry.entries, RegistryApply(w, s).registry.entries, key)
    ensures MayLose(w, OnRegistry(s), key)
  {
    var answered := I.Answered(w.registry.entries, w.requests[s.r].worker.key, s.response, s.disposition, s.number);
    assert key in answered && answered[key] == w.registry.entries[key];
    hide I.OnlyExcessWent, I.LostToStorage, I.Answered;
    assert key !in s.trimmed;
    I.ExcessIsStorage(answered, s.trimmed);
  }

  lemma RegistryLoses(w: World, s: RegistryStep, key: I.Key)
    requires RegistryEnabled(w, s)
    requires key in w.registry.entries && w.registry.entries[key].state.Complete?
    requires !StillAnswers(w.registry.entries, RegistryApply(w, s).registry.entries, key)
    ensures MayLose(w, OnRegistry(s), key)
  {
    if s.Join? || s.RefuseJoin? {
      JoinLoses(w, s, key);
    } else if s.Complete? {
      CompletionLoses(w, s, key);
    }
    hide I.Trims, I.Evicted, I.Crowded, I.Lapsed, I.LostToRoom, I.Present, I.OnlyExcessWent, I.LostToStorage,
      I.Answered;
  }

  lemma StepLoses(w: World, step: Step, key: I.Key)
    requires Enabled(w, step)
    requires key in w.registry.entries && w.registry.entries[key].state.Complete?
    requires !StillAnswers(w.registry.entries, Apply(w, step).registry.entries, key)
    ensures MayLose(w, step, key)
  {
    if step.OnRegistry? {
      hide RegistryEnabled, RegistryApply, StillAnswers;
      RegistryLoses(w, step.registry, key);
    }
  }

  /** The answer under `key` may be lost in this step of the run. */
  ghost predicate LosesAt(run: seq<World>, steps: seq<Step>, m: nat, key: I.Key)
    requires m < |steps| && m < |run|
  {
    && key in run[m].registry.entries && run[m].registry.entries[key].state.Complete?
    && MayLose(run[m], steps[m], key)
  }

  /**
   * A stored answer is there at every later point of the run, unchanged, unless one of the steps
   * since then was allowed to drop it: an admission after its deadline, one that needed the room, a
   * completion past the storage bound, its session's cleanup, or shutdown.
   */
  lemma {:induction false} AnswerIsKept(run: seq<World>, steps: seq<Step>, i: nat, j: nat, key: I.Key)
    requires IsRun(run, steps) && i <= j <= |steps|
    requires key in run[i].registry.entries && run[i].registry.entries[key].state.Complete?
    ensures || StillAnswers(run[i].registry.entries, run[j].registry.entries, key)
            || exists m :: i <= m < j && LosesAt(run, steps, m, key)
    decreases j - i
  {
    hide Enabled, Apply, MayLose;
    if i < j {
      AnswerIsKept(run, steps, i, j - 1, key);
      RunStep(run, steps, j - 1);
      if StillAnswers(run[i].registry.entries, run[j - 1].registry.entries, key) {
        if !StillAnswers(run[j - 1].registry.entries, run[j].registry.entries, key) {
          StepLoses(run[j - 1], steps[j - 1], key);
          assert LosesAt(run, steps, j - 1, key);
        }
      }
    }
  }
}
