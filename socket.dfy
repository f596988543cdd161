/**
 * The socket hook (client/src/hooks/useWebSocket.js): the reconnect policy on `disconnect`,
 * the skills list and upload-progress map that socket events replace, and the guards on the
 * three emitting actions. Creating the socket and the timers that fire later are outside the
 * model; a scheduled reconnect shows up as the delay `OnDisconnect` returns.
 */
module Socket {
  import opened Wrappers
  import opened Seqs

  const MaxReconnectAttempts: nat := 5
  const MaxReconnectDelay: nat := 30000
  /** The reason Socket.IO gives when the client itself closed the socket. */
  const ManualDisconnect: string := "io client disconnect"

  datatype Skill = Skill(id: string, name: string, level: string)

  /** What an emitting action sends: the event name and its payload. */
  datatype Emission =
    | UpdateSkillEvent(id: string, level: string)
    | AddSkillEvent(skill: Skill)
    | DeleteSkillEvent(id: string)

  // ---------------------------------------------------------------- reconnect policy

  function Pow2(n: nat): (r: nat)
    ensures r >= 1
  {
    if n == 0 then 1 else 2 * Pow2(n - 1)
  }

  lemma {:induction false} Pow2Monotone(a: nat, b: nat)
    requires a <= b
    ensures Pow2(a) <= Pow2(b)
    decreases b
  {
    if a < b {
      Pow2Monotone(a, b - 1);
    }
  }

  /** `Math.min(1000 * Math.pow(2, attempts), 30000)`. */
  function ReconnectDelay(attempts: nat): (r: nat)
    ensures r <= MaxReconnectDelay
    ensures r >= 1000
  {
    if 1000 * Pow2(attempts) < MaxReconnectDelay then 1000 * Pow2(attempts) else MaxReconnectDelay
  }

  /** Each further attempt waits at least as long as the one before. */
  lemma ReconnectDelayMonotone(a: nat, b: nat)
    requires a <= b
    ensures ReconnectDelay(a) <= ReconnectDelay(b)
  {
    Pow2Monotone(a, b);
  }

  /** The five delays the counter can reach: 2, 4, 8 and 16 seconds, then the 30-second cap. */
  lemma ReconnectDelaySchedule()
    ensures ReconnectDelay(1) == 2000 && ReconnectDelay(2) == 4000 && ReconnectDelay(3) == 8000
    ensures ReconnectDelay(4) == 16000 && ReconnectDelay(5) == 30000
  {
    assert Pow2(5) == 32;
  }

  /** The `disconnect` handler's test: not closed on purpose, and attempts left. */
  predicate ShouldReconnect(reason: string, attempts: nat) {
    reason != ManualDisconnect && attempts < MaxReconnectAttempts
  }

  /** One `disconnect` event, on the counter alone: the new counter, and the delay of the reconnect
      it schedules if any. A reconnect is scheduled exactly when the handler's test passes, the
      counter then rises by one and the delay uses the new count; otherwise nothing changes. */
  function DisconnectStep(attempts: nat, reason: string): (r: (nat, Option<nat>))
    ensures r.1.Some? <==> ShouldReconnect(reason, attempts)
    ensures r.0 == if r.1.Some? then attempts + 1 else attempts
    ensures r.1.Some? ==> r.1.value == ReconnectDelay(r.0)
  {
    if ShouldReconnect(reason, attempts) then (attempts + 1, Some(ReconnectDelay(attempts + 1)))
    else (attempts, None)
  }

  /** The delays scheduled by a run of `disconnect` events with no `connect` in between,
      starting from a counter of `attempts`: `DisconnectStep` folded over the reasons. */
  function StormDelays(attempts: nat, reasons: seq<string>): seq<nat>
    decreases |reasons|
  {
    if reasons == [] then []
    else
      var (next, delay) := DisconnectStep(attempts, reasons[0]);
      (if delay.Some? then [delay.value] else []) + StormDelays(next, reasons[1..])
  }

  /** The i-th scheduled reconnect of a run waits `ReconnectDelay(attempts + 1 + i)`, and a run
      schedules no more reconnects than the attempts left. */
  lemma {:induction false} StormDelaysCounted(attempts: nat, reasons: seq<string>)
    requires attempts <= MaxReconnectAttempts
    ensures |StormDelays(attempts, reasons)| <= MaxReconnectAttempts - attempts
    ensures forall i :: 0 <= i < |StormDelays(attempts, reasons)| ==>
              StormDelays(attempts, reasons)[i] == ReconnectDelay(attempts + 1 + i)
    decreases |reasons|
  {
    if reasons != [] {
      if ShouldReconnect(reasons[0], attempts) {
        StormDelaysCounted(attempts + 1, reasons[1..]);
      } else {
        StormDelaysCounted(attempts, reasons[1..]);
      }
    }
  }

  /** However many disconnects arrive, at most five reconnects are scheduled, none later than
      30 seconds and none sooner than the one before. */
  lemma StormBounded(reasons: seq<string>)
    ensures |StormDelays(0, reasons)| <= MaxReconnectAttempts
    ensures forall i :: 0 <= i < |StormDelays(0, reasons)| ==> StormDelays(0, reasons)[i] <= MaxReconnectDelay
    ensures forall i, j :: 0 <= i < j < |StormDelays(0, reasons)| ==>
              StormDelays(0, reasons)[i] <= StormDelays(0, reasons)[j]
  {
    StormDelaysCounted(0, reasons);
    var d := StormDelays(0, reasons);
    forall i, j | 0 <= i < j < |d| ensures d[i] <= d[j] {
      ReconnectDelayMonotone(i + 1, j + 1);
    }
  }

  // ---------------------------------------------------------------- skills and uploads

  /** `skillUpdated`: every skill with the updated skill's id becomes the updated skill. */
  function UpdateSkills(skills: seq<Skill>, updated: Skill): (r: seq<Skill>)
    ensures |r| == |skills|
    ensures forall i :: 0 <= i < |skills| && skills[i].id != updated.id ==> r[i] == skills[i]
  {
    seq(|skills|, i requires 0 <= i < |skills| => if skills[i].id == updated.id then updated else skills[i])
  }

  /** `skill => skill.id !== skillId`. */
  function NotSkill(skillId: string): Skill -> bool {
    (s: Skill) => s.id != skillId
  }

  /** `skillDeleted`. */
  function DeleteSkills(skills: seq<Skill>, skillId: string): (r: seq<Skill>)
    ensures |r| <= |skills|
    ensures forall i :: 0 <= i < |r| ==> r[i] in skills && r[i].id != skillId
  {
    Filter(skills, NotSkill(skillId))
  }

  /** An update keeps the length and every skill with another id, and leaves no stale copy of the updated one. */
  lemma UpdateSkillsReplacesMatching(skills: seq<Skill>, updated: Skill)
    ensures |UpdateSkills(skills, updated)| == |skills|
    ensures forall i :: 0 <= i < |skills| && skills[i].id != updated.id ==> UpdateSkills(skills, updated)[i] == skills[i]
    ensures forall i :: 0 <= i < |skills| && skills[i].id == updated.id ==> UpdateSkills(skills, updated)[i] == updated
  {
  }

  /** After a delete no skill with that id is left; every other skill stays, every copy of it,
      in order. */
  lemma {:induction false} DeleteSkillsRemovesAll(skills: seq<Skill>, skillId: string)
    ensures forall i :: 0 <= i < |DeleteSkills(skills, skillId)| ==> DeleteSkills(skills, skillId)[i].id != skillId
    ensures forall i :: 0 <= i < |skills| && skills[i].id != skillId ==> skills[i] in DeleteSkills(skills, skillId)
    ensures forall k: Skill :: k.id != skillId ==> multiset(DeleteSkills(skills, skillId))[k] == multiset(skills)[k]
    ensures IsSubsequence(DeleteSkills(skills, skillId), skills)
  {
    FilterIsSubsequence(skills, NotSkill(skillId));
    forall k: Skill | k.id != skillId
      ensures multiset(DeleteSkills(skills, skillId))[k] == multiset(skills)[k]
    {
      FilterCount(skills, NotSkill(skillId), k);
    }
  }

  /** Deleting an id that was just added by `skillAdded` restores the list, when no other skill had that id. */
  lemma AddThenDelete(skills: seq<Skill>, added: Skill)
    requires forall i :: 0 <= i < |skills| ==> skills[i].id != added.id
    ensures DeleteSkills(skills + [added], added.id) == skills
  {
    FilterDropsOne(skills, added, [], NotSkill(added.id));
    assert skills + [added] + [] == skills + [added];
  }

  /** An upload's progress, completion and cleanup leave no entry for that file and every other
      file's entry as it was. */
  lemma UploadLeavesNoTrace(progress: map<string, int>, filename: string, percent: int)
    ensures (progress[filename := percent][filename := 100] - {filename}) == progress - {filename}
    ensures forall f :: f in progress && f != filename ==>
              f in progress[filename := percent][filename := 100] - {filename}
              && (progress[filename := percent][filename := 100] - {filename})[f] == progress[f]
  {
  }

  // ---------------------------------------------------------------- the hook's state

  class SocketHook {
    /** `socket !== null`. */
    var hasSocket: bool
    var isConnected: bool
    var skills: seq<Skill>
    var uploadProgress: map<string, int>
    var error: Option<string>
    /** `reconnectAttempts.current`. */
    var reconnectAttempts: nat

    ghost predicate Valid()
      reads this
    {
      reconnectAttempts <= MaxReconnectAttempts
    }

    constructor ()
      ensures Valid()
      ensures !hasSocket && !isConnected && skills == [] && uploadProgress == map[]
      ensures error == None && reconnectAttempts == 0
    {
      hasSocket, isConnected, skills, uploadProgress := false, false, [], map[];
      error, reconnectAttempts := None, 0;
    }

    /** `connect`: a socket is created, or creating it throws with `failure` as the message. */
    method Connect(failure: Option<string>)
      modifies this`hasSocket, this`error
      ensures failure.None? ==> hasSocket && error == old(error)
      ensures failure.Some? ==> hasSocket == old(hasSocket) && error == Some("Failed to connect: " + failure.value)
    {
      if failure.Some? {
        error := Some("Failed to connect: " + failure.value);
      } else {
        hasSocket := true;
      }
    }

    /** The `connect` event: connected, no error, and the attempt counter back to zero. */
    method OnConnect()
      requires Valid()
      modifies this`isConnected, this`error, this`reconnectAttempts
      ensures Valid()
      ensures isConnected && error == None && reconnectAttempts == 0
    {
      isConnected, error, reconnectAttempts := true, None, 0;
    }

    /** The `disconnect` event. A reconnect is scheduled, after the returned delay, only when the
        socket was not closed on purpose and fewer than five attempts were made; the counter then
        goes up by one and the delay is computed from the new count. */
    method OnDisconnect(reason: string) returns (delay: Option<nat>)
      requires Valid()
      modifies this`isConnected, this`reconnectAttempts
      ensures Valid()
      ensures !isConnected
      ensures delay.Some? <==> ShouldReconnect(reason, old(reconnectAttempts))
      ensures reconnectAttempts == if delay.Some? then old(reconnectAttempts) + 1 else old(reconnectAttempts)
      ensures delay.Some? ==> delay.value == ReconnectDelay(reconnectAttempts)
      ensures (reconnectAttempts, delay) == DisconnectStep(old(reconnectAttempts), reason)
    {
      isConnected := false;
      if ShouldReconnect(reason, reconnectAttempts) {
        reconnectAttempts := reconnectAttempts + 1;
        delay := Some(ReconnectDelay(reconnectAttempts));
      } else {
        delay := None;
      }
    }

    /** The `connect_error` event. */
    method OnConnectError(message: string)
      modifies this`error, this`isConnected
      ensures error == Some("Connection failed: " + message) && !isConnected
    {
      error, isConnected := Some("Connection failed: " + message), false;
    }

    /** `disconnect`: the socket is closed and dropped. */
    method Disconnect()
      modifies this`hasSocket, this`isConnected
      ensures !hasSocket && !isConnected
    {
      hasSocket, isConnected := false, false;
    }

    /** `skillsData`: the list is replaced wholesale. */
    method OnSkillsData(data: seq<Skill>)
      modifies this`skills
      ensures skills == data
    {
      skills := data;
    }

    method OnSkillUpdated(updated: Skill)
      modifies this`skills
      ensures skills == UpdateSkills(old(skills), updated)
    {
      skills := UpdateSkills(skills, updated);
    }

    /** `skillAdded`: appended at the end. */
    method OnSkillAdded(skill: Skill)
      modifies this`skills
      ensures skills == old(skills) + [skill]
    {
      skills := skills + [skill];
    }

    method OnSkillDeleted(skillId: string)
      modifies this`skills
      ensures skills == DeleteSkills(old(skills), skillId)
    {
      skills := DeleteSkills(skills, skillId);
    }

    /** `skillsBulkAdded`: appended at the end, in the order received. */
    method OnSkillsBulkAdded(added: seq<Skill>)
      modifies this`skills
      ensures skills == old(skills) + added
    {
      skills := skills + added;
    }

    /** `uploadProgress`: only the named file's entry is set. */
    method OnUploadProgress(filename: string, progress: int)
      modifies this`uploadProgress
      ensures uploadProgress == old(uploadProgress)[filename := progress]
    {
      uploadProgress := uploadProgress[filename := progress];
    }

    /** `uploadComplete`: the named file's entry becomes 100. */
    method OnUploadComplete(filename: string)
      modifies this`uploadProgress
      ensures uploadProgress == old(uploadProgress)[filename := 100]
    {
      uploadProgress := uploadProgress[filename := 100];
    }

    /** The cleanup `uploadComplete` schedules: only that file's key is deleted. */
    method ClearUploadProgress(filename: string)
      modifies this`uploadProgress
      ensures uploadProgress == old(uploadProgress) - {filename}
    {
      uploadProgress := uploadProgress - {filename};
    }

    /** `updateSkill`: emits only with a socket that is connected. */
    method UpdateSkill(skillId: string, level: string) returns (sent: Option<Emission>)
      ensures sent.Some? <==> hasSocket && isConnected
      ensures sent.Some? ==> sent.value == UpdateSkillEvent(skillId, level)
    {
      sent := if hasSocket && isConnected then Some(UpdateSkillEvent(skillId, level)) else None;
    }

    /** `addSkill`: emits only with a socket that is connected. */
    method AddSkill(skill: Skill) returns (sent: Option<Emission>)
      ensures sent.Some? <==> hasSocket && isConnected
      ensures sent.Some? ==> sent.value == AddSkillEvent(skill)
    {
      sent := if hasSocket && isConnected then Some(AddSkillEvent(skill)) else None;
    }

    /** `deleteSkill`: emits only with a socket that is connected. */
    method DeleteSkill(skillId: string) returns (sent: Option<Emission>)
      ensures sent.Some? <==> hasSocket && isConnected
      ensures sent.Some? ==> sent.value == DeleteSkillEvent(skillId)
    {
      sent := if hasSocket && isConnected then Some(DeleteSkillEvent(skillId)) else None;
    }
  }
}
