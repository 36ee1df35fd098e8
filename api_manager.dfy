/**
 * The desktop client's link to the web service (Core/API/APIManager.cpp):
 * the signed-in state, project creation, and the list of submitted AI jobs
 * that a 3-second timer polls until each reports "completed".
 *
 * Every asynchronous reply (authentication, upload, job request, results
 * query) is modelled as a separate event method whose parameters carry what
 * the service answered; the HTTP client itself is not part of this model.
 */
module Api {
  import opened Wrappers
  import opened Text

  /** The three kinds of job that are polled, with the type names the client stores. */
  datatype OpKind = Mixing | Mastering | Stems {
    function Name(): (s: string)
      ensures s in {"mixing", "mastering", "stems"}
    {
      match this
      case Mixing => "mixing"
      case Mastering => "mastering"
      case Stems => "stems"
    }
  }

  /** Distinct kinds are stored under distinct type names. */
  lemma NamesDistinct(a: OpKind, b: OpKind)
    ensures a.Name() == b.Name() <==> a == b
  {
  }

  /** `PendingOperation`: a submitted job waiting for its results. */
  datatype PendingOp = PendingOp(kind: OpKind, projectId: string, startTime: int)

  /** The results query a poll sends for a job. */
  datatype Query = GetMixingResults(projectId: string)
                 | GetMasteringResults(projectId: string)
                 | GetStemResults(projectId: string)

  /** `pollOperation`'s dispatch: each job type is polled through its own results query. */
  function QueryFor(op: PendingOp): (q: Query)
    ensures q.projectId == op.projectId
    ensures q.GetMixingResults? <==> op.kind == Mixing
    ensures q.GetMasteringResults? <==> op.kind == Mastering
    ensures q.GetStemResults? <==> op.kind == Stems
  {
    match op.kind
    case Mixing => GetMixingResults(op.projectId)
    case Mastering => GetMasteringResults(op.projectId)
    case Stems => GetStemResults(op.projectId)
  }

  /** Two entries stand for the same job when project and type agree; start times are ignored. */
  predicate SameJob(a: PendingOp, b: PendingOp) {
    a.projectId == b.projectId && a.kind == b.kind
  }

  /** The list with its first entry for the same job as `op` taken out. */
  function RemoveFirst(ops: seq<PendingOp>, op: PendingOp): (r: seq<PendingOp>)
    ensures (exists i :: 0 <= i < |ops| && SameJob(ops[i], op)) ==> |r| == |ops| - 1
    ensures (forall i :: 0 <= i < |ops| ==> !SameJob(ops[i], op)) ==> r == ops
    ensures multiset(r) <= multiset(ops)
  {
    if ops == [] then []
    else
      assert ops == [ops[0]] + ops[1..];
      if SameJob(ops[0], op) then ops[1..] else [ops[0]] + RemoveFirst(ops[1..], op)
  }

  /** The removed entry is the first match: everything before it stays, everything after it shifts down one. */
  lemma {:induction false} RemoveFirstAt(ops: seq<PendingOp>, op: PendingOp, k: nat)
    requires k < |ops| && SameJob(ops[k], op)
    requires forall j :: 0 <= j < k ==> !SameJob(ops[j], op)
    ensures RemoveFirst(ops, op) == ops[..k] + ops[k + 1..]
    decreases k
  {
    if k > 0 {
      RemoveFirstAt(ops[1..], op, k - 1);
      assert ops[1..][..k - 1] == ops[1..k];
      assert ops[1..][k..] == ops[k + 1..];
      assert [ops[0]] + ops[1..k] == ops[..k];
    }
  }

  /** The fields sent with `createProject`. */
  datatype ProjectData = ProjectData(name: string, sampleRate: string, bitDepth: string, tempo: int, tracksCount: int)

  /** What `createProject` does with a request. */
  datatype CreateOutcome =
    | Refused                   // not signed in: the callback gets (false, "")
    | Sent(data: ProjectData)   // the request goes to the service

  /** The project sent: rates as decimal strings, tempo 120 and 8 tracks. */
  function ProjectRequest(name: string, sampleRate: int, bitDepth: int): (d: ProjectData)
    ensures d.name == name && d.tempo == 120 && d.tracksCount == 8
    ensures sampleRate >= 0 ==> d.sampleRate == Decimal(sampleRate)
    ensures bitDepth >= 0 ==> d.bitDepth == Decimal(bitDepth)
  {
    ProjectData(name, IntToString(sampleRate), IntToString(bitDepth), 120, 8)
  }

  /** The reply handed to `createProject`'s callback: the new id on success, else failure and "". */
  function CreateProjectReply(success: bool, responseId: Option<string>): (r: (bool, string))
    ensures r.0 <==> success && responseId.Some?
    ensures r.0 ==> r.1 == responseId.value
    ensures !r.0 ==> r.1 == ""
  {
    if success && responseId.Some? then (true, responseId.value) else (false, "")
  }

  /** One row of a results query reply; `status` is absent when the row has no such property. */
  datatype ResultRow = ResultRow(status: Option<string>)

  /** A results reply that completes its job: a successful, non-empty array whose first row says "completed". */
  predicate Completes(success: bool, response: seq<ResultRow>) {
    success && |response| > 0 && response[0].status == Some("completed")
  }

  class ApiManager {
    var authenticated: bool
    var currentUser: string
    /** The token the HTTP client sends. */
    var clientToken: string
    var pendingOperations: seq<PendingOp>
    /** Whether the 3000 ms polling timer is running. */
    var timerRunning: bool

    /** A fresh manager, holding the stored token if there is one; nobody is signed in yet. */
    constructor (storedToken: string)
      ensures !authenticated && currentUser == "" && clientToken == storedToken
      ensures pendingOperations == [] && !timerRunning
    {
      authenticated := false;
      currentUser := "";
      clientToken := storedToken;
      pendingOperations := [];
      timerRunning := false;
    }

    /**
     * The reply to `authenticate`, after start-up with a stored token or
     * after a sign-in: the flag takes the outcome, the user is kept on
     * failure, and the outcome is announced.
     */
    method OnAuthenticated(success: bool, user: string) returns (announced: bool)
      modifies this`authenticated, this`currentUser
      ensures authenticated == success && announced == success
      ensures currentUser == if success then user else old(currentUser)
    {
      authenticated := success;
      if success {
        currentUser := user;
      }
      announced := success;
    }

    /** `handleAuthComplete`: the token from the sign-in page is installed before it is checked. */
    method HandleAuthComplete(token: string)
      modifies this`clientToken
      ensures clientToken == token
    {
      clientToken := token;
    }

    /** `logout`: signed out, user and token cleared, and `false` announced. */
    method Logout() returns (announced: bool)
      modifies this`authenticated, this`currentUser, this`clientToken
      ensures !authenticated && currentUser == "" && clientToken == "" && !announced
    {
      authenticated := false;
      currentUser := "";
      clientToken := "";
      announced := false;
    }

    method IsLoggedIn() returns (b: bool)
      ensures b == authenticated
    {
      return authenticated;
    }

    /** `createProject`: refused without a session, otherwise the project fields are sent. */
    method CreateProject(name: string, sampleRate: int, bitDepth: int) returns (outcome: CreateOutcome)
      ensures !authenticated <==> outcome == Refused
      ensures authenticated ==> outcome == Sent(ProjectRequest(name, sampleRate, bitDepth))
    {
      if !authenticated {
        return Refused;
      }
      outcome := Sent(ProjectData(name, IntToString(sampleRate), IntToString(bitDepth), 120, 8));
    }

    /** `startPolling`: starts the timer only when it is not already running. */
    method StartPolling()
      modifies this`timerRunning
      ensures timerRunning
    {
      if !timerRunning {
        timerRunning := true;
      }
    }

    method StopPolling()
      modifies this`timerRunning
      ensures !timerRunning
    {
      timerRunning := false;
    }

    /**
     * `processMixing`, `processMastering` and `processStemSeparation` with
     * their two replies folded in: without a session, or when the upload or
     * the job request fails, the caller hears failure and nothing is queued;
     * otherwise exactly one job of that kind is queued and polling starts.
     */
    method Process(kind: OpKind, projectId: string, now: int, uploadSucceeded: bool, requestSucceeded: bool)
      returns (success: bool)
      modifies this`pendingOperations, this`timerRunning
      ensures success <==> authenticated && uploadSucceeded && requestSucceeded
      ensures success ==> pendingOperations == old(pendingOperations) + [PendingOp(kind, projectId, now)] && timerRunning
      ensures !success ==> pendingOperations == old(pendingOperations) && timerRunning == old(timerRunning)
    {
      if !authenticated {
        return false;
      }
      if !uploadSucceeded {
        return false;
      }
      if !requestSucceeded {
        return false;
      }
      pendingOperations := pendingOperations + [PendingOp(kind, projectId, now)];
      StartPolling();
      success := true;
    }

    /** `checkPendingOperations`: one results query per job, last job first. */
    method CheckPendingOperations() returns (queries: seq<Query>)
      ensures |queries| == |pendingOperations|
      ensures forall i :: 0 <= i < |queries| ==>
        queries[i] == QueryFor(pendingOperations[|pendingOperations| - 1 - i])
    {
      queries := [];
      var i := |pendingOperations| - 1;
      while i >= 0
        invariant -1 <= i < |pendingOperations|
        invariant |queries| == |pendingOperations| - 1 - i
        invariant forall j :: 0 <= j < |queries| ==>
          queries[j] == QueryFor(pendingOperations[|pendingOperations| - 1 - j])
      {
        queries := queries + [QueryFor(pendingOperations[i])];
        i := i - 1;
      }
    }

    /**
     * `timerCallback`: polls every job, then stops the timer iff no job is
     * pending. Replies arrive later, through `OnPollResult`.
     */
    method TimerCallback() returns (queries: seq<Query>)
      modifies this`timerRunning
      ensures |queries| == |pendingOperations|
      ensures forall i :: 0 <= i < |queries| ==>
        queries[i] == QueryFor(pendingOperations[|pendingOperations| - 1 - i])
      ensures timerRunning == (old(timerRunning) && pendingOperations != [])
    {
      queries := CheckPendingOperations();
      if pendingOperations == [] {
        StopPolling();
      }
    }

    /**
     * The reply to a job's results query. A completed job leaves the list
     * (only its first entry) and is announced with its type and first row;
     * any other reply changes nothing.
     */
    method OnPollResult(op: PendingOp, success: bool, response: seq<ResultRow>)
      returns (completed: Option<(OpKind, ResultRow)>)
      modifies this`pendingOperations
      ensures Completes(success, response) ==>
        pendingOperations == RemoveFirst(old(pendingOperations), op) && completed == Some((op.kind, response[0]))
      ensures !Completes(success, response) ==>
        pendingOperations == old(pendingOperations) && completed == None
    {
      completed := None;
      if success && |response| > 0 {
        var result := response[0];
        if result.status.Some? {
          if result.status.value == "completed" {
            var i := 0;
            while i < |pendingOperations|
              invariant 0 <= i <= |pendingOperations|
              invariant pendingOperations == old(pendingOperations)
              invariant forall j :: 0 <= j < i ==> !SameJob(pendingOperations[j], op)
            {
              if pendingOperations[i].projectId == op.projectId && pendingOperations[i].kind == op.kind {
                RemoveFirstAt(pendingOperations, op, i);
                pendingOperations := pendingOperations[..i] + pendingOperations[i + 1..];
                break;
              }
              i := i + 1;
            }
            completed := Some((op.kind, result));
          }
        }
      }
    }
  }

  /** The removals the polling scenario below performs. */
  lemma ScenarioRemovals(mixing: PendingOp, mastering: PendingOp)
    requires mixing == PendingOp(Mixing, "p", 1) && mastering == PendingOp(Mastering, "p", 2)
    ensures RemoveFirst([mixing, mastering], mixing) == [mastering]
    ensures RemoveFirst([mastering], mastering) == []
  {
    assert [mixing, mastering][1..] == [mastering];
  }

  /** A signed-in manager that has started a mixing job and then a mastering job for one project. */
  method StartTwoJobs() returns (api: ApiManager)
    ensures fresh(api) && api.authenticated && api.timerRunning
    ensures api.pendingOperations == [PendingOp(Mixing, "p", 1), PendingOp(Mastering, "p", 2)]
  {
    api := new ApiManager("token");
    var _ := api.OnAuthenticated(true, "user");
    var _ := api.Process(Mixing, "p", 1, true, true);
    var _ := api.Process(Mastering, "p", 2, true, true);
  }

  /**
   * Two jobs for one project: a completed mixing reply takes out the mixing
   * job only, and the tick after the last job completes stops the timer.
   */
  method PollingScenario() returns (afterFirst: seq<PendingOp>, afterSecond: seq<PendingOp>, timerAfter: bool)
    ensures afterFirst == [PendingOp(Mastering, "p", 2)]
    ensures afterSecond == [] && !timerAfter
  {
    var api := StartTwoJobs();
    var mixing, mastering := PendingOp(Mixing, "p", 1), PendingOp(Mastering, "p", 2);
    var done := [ResultRow(Some("completed"))];
    assert Completes(true, done);
    ScenarioRemovals(mixing, mastering);
    var _ := api.OnPollResult(mixing, true, done);
    afterFirst := api.pendingOperations;
    var _ := api.OnPollResult(mastering, true, done);
    afterSecond := api.pendingOperations;
    var _ := api.TimerCallback();
    timerAfter := api.timerRunning;
  }
}
