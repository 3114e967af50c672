/** Per-request usage accounting (api/usage.py): a recorder counts tool calls,
    remembers whether the request failed and writes one usage record when it
    commits. */
module Usage {
  import opened Wrappers

  /** The fields a committed usage record stores (its latency is left out). */
  datatype Record = Record(clientId: string, endpoint: string, session: Option<nat>,
                           success: bool, toolCalls: int)

  /** The recorder's mutable part: its tool-call counter and success flag. */
  datatype Counters = Counters(toolCalls: int, success: bool)

  /** What the handlers do to a recorder. */
  datatype Use = IncTool(n: int) | MarkFailed | Commit

  /** One use applied to the counters; a commit leaves them as they are. */
  function Apply(c: Counters, u: Use): Counters {
    match u
    case IncTool(n) => Counters(c.toolCalls + n, c.success)
    case MarkFailed => Counters(c.toolCalls, false)
    case Commit => c
  }

  /** A run of uses, left to right. */
  function ApplyAll(c: Counters, us: seq<Use>): Counters
    decreases |us|
  {
    if us == [] then c else ApplyAll(Apply(c, us[0]), us[1..])
  }

  /** The sum of the increments in a run of uses. */
  function Increments(us: seq<Use>): int
    decreases |us|
  {
    if us == [] then 0 else (if us[0].IncTool? then us[0].n else 0) + Increments(us[1..])
  }

  predicate AnyFailure(us: seq<Use>) {
    exists i :: 0 <= i < |us| && us[i] == MarkFailed
  }

  /** After any run of uses the counter has grown by exactly the increments,
      and success holds exactly when it held before and nothing marked failure:
      no use sets the flag back to true. */
  lemma {:induction false} ApplyAllCounts(c: Counters, us: seq<Use>)
    ensures ApplyAll(c, us).toolCalls == c.toolCalls + Increments(us)
    ensures ApplyAll(c, us).success <==> c.success && !AnyFailure(us)
    decreases |us|
  {
    if us != [] {
      ApplyAllCounts(Apply(c, us[0]), us[1..]);
      if AnyFailure(us[1..]) {
        var i :| 0 <= i < |us[1..]| && us[1..][i] == MarkFailed;
        assert us[i + 1] == MarkFailed;
      }
      if AnyFailure(us) && us[0] != MarkFailed {
        var i :| 0 <= i < |us| && us[i] == MarkFailed;
        assert us[1..][i - 1] == MarkFailed;
      }
    }
  }

  /** Marking failure twice is marking it once. */
  lemma MarkFailedIdempotent(c: Counters)
    ensures Apply(Apply(c, MarkFailed), MarkFailed) == Apply(c, MarkFailed)
    ensures !Apply(c, MarkFailed).success
  {
  }

  /** `UsageRecorder`. A committed record is appended to `committed`, standing
      for the row written to the usage table. */
  class Recorder {
    var clientId: string
    var endpoint: string
    var session: Option<nat>
    var toolCalls: int
    var success: bool
    var committed: seq<Record>

    function Counts(): Counters
      reads this
    {
      Counters(toolCalls, success)
    }

    /** The record a commit would write now. */
    function Snapshot(): (r: Record)
      reads this
      ensures r.clientId == clientId && r.endpoint == endpoint && r.session == session
      ensures r.success == success && r.toolCalls == toolCalls
    {
      Record(clientId, endpoint, session, success, toolCalls)
    }

    /** A new recorder has counted nothing and has not failed. */
    constructor (clientId: string, endpoint: string, session: Option<nat>)
      ensures this.clientId == clientId && this.endpoint == endpoint && this.session == session
      ensures toolCalls == 0 && success
      ensures committed == []
    {
      this.clientId := clientId;
      this.endpoint := endpoint;
      this.session := session;
      toolCalls := 0;
      success := true;
      committed := [];
    }

    /** `inc_tool(n)`; the handlers call it with the default n = 1. */
    method IncTool(n: int)
      modifies this
      ensures Counts() == Apply(old(Counts()), Use.IncTool(n))
      ensures toolCalls == old(toolCalls) + n && success == old(success)
      ensures clientId == old(clientId) && endpoint == old(endpoint) && session == old(session)
      ensures committed == old(committed)
    {
      toolCalls := toolCalls + n;
    }

    method MarkFailed()
      modifies this
      ensures Counts() == Apply(old(Counts()), Use.MarkFailed)
      ensures !success && toolCalls == old(toolCalls)
      ensures clientId == old(clientId) && endpoint == old(endpoint) && session == old(session)
      ensures committed == old(committed)
    {
      success := false;
    }

    /** `commit`: one record of the current fields; no field of the recorder changes. */
    method Commit()
      modifies this
      ensures committed == old(committed) + [old(Snapshot())]
      ensures Counts() == Apply(old(Counts()), Use.Commit)
      ensures clientId == old(clientId) && endpoint == old(endpoint) && session == old(session)
      ensures toolCalls == old(toolCalls) && success == old(success)
    {
      committed := committed + [Snapshot()];
    }
  }
}
