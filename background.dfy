/** The extension's background worker: the stored settings and `todayStats`
    counters, the polling alarm, the poll gate and the per-job counter
    updates.  Each job's fate (what the content script replied, or that
    something threw) is an input; the browser plumbing around it is not
    modelled. */
module Background {
  import opened Wrappers

  /** `todayStats`: `{ posted, failed, queued }`. */
  datatype Stats = Stats(posted: int, failed: int, queued: int)

  /** The value used when `todayStats` is absent. */
  const NoStats: Stats := Stats(0, 0, 0)

  /** A queued comment handed out by the server. */
  datatype Job = Job(id: string, url: string, text: string, platform: string)

  /** What became of one job: the content script replied (truthy or falsy
      `success`), or an exception was thrown before the counters were
      written (tab, message, report request or a missing reply). */
  datatype Outcome = Replied(success: bool) | Threw

  /** The answer to the queue request: unreachable or unparsable, a non-OK
      status, or an OK body whose `comments` may be absent. */
  datatype QueueReply = Failed | NotOk | Ok(comments: Option<seq<Job>>)

  /** The messages the popup sends. */
  datatype Message = StartPolling | StopPolling

  /** JavaScript truthiness of a stored string: present and non-empty. */
  predicate Truthy(s: Option<string>)
  {
    s.Some? && s.value != ""
  }

  /** `todayStats = { posted: 0, failed: 0, queued: 0 }` as a default. */
  function Current(stored: Option<Stats>): (s: Stats)
    ensures stored.None? ==> s == NoStats
    ensures stored.Some? ==> s == stored.value
  {
    if stored.Some? then stored.value else NoStats
  }

  /** `data.comments || []`. */
  function Jobs(comments: Option<seq<Job>>): (r: seq<Job>)
    ensures comments.None? ==> r == []
    ensures comments.Some? ==> r == comments.value
  {
    if comments.Some? then comments.value else []
  }

  /** The counters after one job: `posted` counts a success reply, `failed`
      counts a failure reply or a throw, and `queued` drops by one but not
      below zero. */
  function AfterJob(s: Stats, o: Outcome): (r: Stats)
    ensures r.posted + r.failed == s.posted + s.failed + 1
    ensures r.posted == s.posted + (if o == Replied(true) then 1 else 0)
    ensures r.queued == if s.queued > 0 then s.queued - 1 else 0
  {
    var s' := if o.Replied? && o.success then s.(posted := s.posted + 1) else s.(failed := s.failed + 1);
    s'.(queued := if s'.queued - 1 > 0 then s'.queued - 1 else 0)
  }

  /** The counters after a run of jobs, in batch order. */
  function AfterJobs(s: Stats, os: seq<Outcome>): (r: Stats)
    ensures r.posted >= s.posted && r.failed >= s.failed
    decreases |os|
  {
    if os == [] then s else AfterJobs(AfterJob(s, os[0]), os[1..])
  }

  /** The number of jobs that ended in a success reply. */
  function Successes(os: seq<Outcome>): (n: nat)
    ensures n <= |os|
  {
    if os == [] then 0 else (if os[0] == Replied(true) then 1 else 0) + Successes(os[1..])
  }

  // ---------------------------------------------------------------- lemmas

  /** A batch of `n` jobs adds `n` to `posted + failed`, the successes to
      `posted`, and takes `queued` down by `n`, floored at zero. */
  lemma {:induction false} AfterJobsCounts(s: Stats, os: seq<Outcome>)
    ensures AfterJobs(s, os).posted + AfterJobs(s, os).failed == s.posted + s.failed + |os|
    ensures AfterJobs(s, os).posted == s.posted + Successes(os)
    ensures os != [] ==> AfterJobs(s, os).queued == if s.queued > |os| then s.queued - |os| else 0
    decreases |os|
  {
    if os != [] {
      AfterJobsCounts(AfterJob(s, os[0]), os[1..]);
    }
  }

  /** `queued` is never negative after a job, whatever it was before. */
  lemma QueuedNeverNegative(s: Stats, os: seq<Outcome>)
    requires os != [] || s.queued >= 0
    ensures AfterJobs(s, os).queued >= 0
  {
    AfterJobsCounts(s, os);
  }

  /** Appending a job to the run is applying one more step. */
  lemma {:induction false} AfterJobsSnoc(s: Stats, os: seq<Outcome>, o: Outcome)
    ensures AfterJobs(s, os + [o]) == AfterJob(AfterJobs(s, os), o)
    decreases |os|
  {
    if os == [] {
      assert os + [o] == [o];
    } else {
      assert (os + [o])[1..] == os[1..] + [o];
      AfterJobsSnoc(AfterJob(s, os[0]), os[1..], o);
    }
  }

  // ----------------------------------------------------------------- state

  /** `chrome.storage.local` (the keys `token`, `serverUrl`, `paused` and
      `todayStats`) and whether the polling alarm is armed.  An absent
      `paused` reads as `false`. */
  class Extension {
    var token: Option<string>
    var serverUrl: Option<string>
    var paused: bool
    var todayStats: Option<Stats>
    var alarmArmed: bool

    constructor ()
      ensures token == None && serverUrl == None && !paused
      ensures todayStats == None && !alarmArmed
    {
      token, serverUrl, paused, todayStats, alarmArmed := None, None, false, None, false;
    }

    /** `token && serverUrl && !paused`: the condition under which polling
        starts and a poll does any work. */
    predicate Enabled()
      reads this
    {
      Truthy(token) && Truthy(serverUrl) && !paused
    }

    /** `startPolling` and `stopPolling`, run for the popup's messages. */
    method OnMessage(m: Message)
      modifies this
      ensures alarmArmed <==> m == StartPolling
      ensures token == old(token) && serverUrl == old(serverUrl) && paused == old(paused)
      ensures todayStats == old(todayStats)
    {
      alarmArmed := m == StartPolling;
    }

    /** `checkAndStartPolling`, on install and browser start: arms the alarm
        only when enabled, and never disarms it. */
    method CheckAndStartPolling()
      modifies this
      ensures alarmArmed <==> old(alarmArmed) || Enabled()
      ensures token == old(token) && serverUrl == old(serverUrl) && paused == old(paused)
      ensures todayStats == old(todayStats)
    {
      if Truthy(token) && Truthy(serverUrl) && !paused {
        alarmArmed := true;
      }
    }

    /** The tail of `processComment`: read the counters (or the zero
        default), count the job, write them back. */
    method ProcessComment(o: Outcome)
      modifies this
      ensures todayStats == Some(AfterJob(Current(old(todayStats)), o))
      ensures token == old(token) && serverUrl == old(serverUrl) && paused == old(paused)
      ensures alarmArmed == old(alarmArmed)
    {
      var stats := Current(todayStats);
      if o.Replied? && o.success {
        stats := stats.(posted := stats.posted + 1);
      } else {
        stats := stats.(failed := stats.failed + 1);
      }
      stats := stats.(queued := if 0 > stats.queued - 1 then 0 else stats.queued - 1);
      todayStats := Some(stats);
    }

    /** `pollQueue`, with the queue reply and each job's outcome as inputs.
        Disabled, or on a failed or non-OK reply, nothing changes; otherwise
        `queued` becomes the batch length and the jobs are counted one by one
        in batch order.  `paused` is read once, before the batch. */
    method PollQueue(reply: QueueReply, outcomes: seq<Outcome>) returns (processed: nat)
      requires reply.Ok? ==> |outcomes| == |Jobs(reply.comments)|
      modifies this
      ensures !old(Enabled()) || !reply.Ok? ==> processed == 0 && todayStats == old(todayStats)
      ensures old(Enabled()) && reply.Ok? ==>
        && processed == |outcomes|
        && todayStats == Some(AfterJobs(Current(old(todayStats)).(queued := |outcomes|), outcomes))
      ensures token == old(token) && serverUrl == old(serverUrl) && paused == old(paused)
      ensures alarmArmed == old(alarmArmed)
    {
      if !Truthy(token) || !Truthy(serverUrl) || paused {
        return 0;
      }
      if !reply.Ok? {
        return 0;
      }
      var comments := Jobs(reply.comments);
      var stats := Current(todayStats);
      stats := stats.(queued := |comments|);
      todayStats := Some(stats);
      ghost var start := stats;
      processed := 0;
      while processed < |comments|
        invariant 0 <= processed <= |comments|
        invariant todayStats == Some(AfterJobs(start, outcomes[..processed]))
        invariant token == old(token) && serverUrl == old(serverUrl) && paused == old(paused)
        invariant alarmArmed == old(alarmArmed)
      {
        ProcessComment(outcomes[processed]);
        AfterJobsSnoc(start, outcomes[..processed], outcomes[processed]);
        assert outcomes[..processed + 1] == outcomes[..processed] + [outcomes[processed]];
        processed := processed + 1;
      }
      assert outcomes[..processed] == outcomes;
    }

    /** The `reset-stats` alarm: all three counters back to zero. */
    method ResetStats()
      modifies this
      ensures todayStats == Some(NoStats)
      ensures token == old(token) && serverUrl == old(serverUrl) && paused == old(paused)
      ensures alarmArmed == old(alarmArmed)
    {
      todayStats := Some(Stats(0, 0, 0));
    }
  }

  /** After a full batch that began from the batch length, nothing is left
      queued and `posted + failed` has grown by the batch length. */
  lemma BatchDrainsQueue(s: Stats, outcomes: seq<Outcome>)
    ensures AfterJobs(s.(queued := |outcomes|), outcomes).queued == 0
    ensures AfterJobs(s.(queued := |outcomes|), outcomes).posted
          + AfterJobs(s.(queued := |outcomes|), outcomes).failed == s.posted + s.failed + |outcomes|
  {
    AfterJobsCounts(s.(queued := |outcomes|), outcomes);
  }
}
