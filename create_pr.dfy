/** The pull-request route: validate the request, read the default branch and its head
    commit, create the branch, write one test file per test, and open the pull request.
    The upstream service is a given function from calls to replies, and the route
    records the calls it makes in order. */
module PullRequest {
  import opened Strings
  import opened Sequences

  /** A test to commit: its file name, its summary's title and its code. */
  datatype PrTest = PrTest(fileName: string, title: string, code: string)

  /** The request body; a missing string field is the empty string, a missing `tests` the empty list.
      For `repository`, `branchName` and `title` this is exact, since the route's check treats
      both alike. A missing `description` is sent on as an empty pull-request body, where the
      route would send no `body` field at all. */
  datatype PrRequest = PrRequest(repository: string, branchName: string, title: string, description: string, tests: seq<PrTest>)

  /** The calls the route makes upstream. */
  datatype Call =
    | GetRepo(repo: string)
    | GetRef(repo: string, branch: string)
    | CreateRef(repo: string, ref: string, sha: string)
    | PutFile(repo: string, path: string, message: string, content: string, branch: string)
    | CreatePull(repo: string, title: string, body: string, head: string, base: string)

  /** The fields of a reply body that the route reads: `default_branch`, `object.sha`
      (`None` when `object` is missing) and `message` (`None` when missing). */
  datatype Json = Json(defaultBranch: string, sha: Option<string>, message: Option<string>)

  /** A reply: the request threw, or it was answered with a status and a body that
      parses as JSON (`Some`) or does not (`None`). */
  datatype Reply = Threw | Answered(ok: bool, json: Option<Json>)

  /** What the route returns: 401, 400, 500, or the created pull request. */
  datatype Outcome = Unauthorized | MissingFields | Failed | Created(pullRequest: Json)

  /** The outcome and the calls made, in order. */
  datatype Run = Run(outcome: Outcome, calls: seq<Call>)

  const HeadsPrefix := "refs/heads/"
  const TestsDir := "tests/"
  const AddPrefix := "Add "
  const AlreadyExists := "already exists"

  /** The HTTP status of each outcome. */
  function Status(o: Outcome): (code: int)
    ensures code == 200 <==> o.Created?
  {
    match o
    case Unauthorized => 401
    case MissingFields => 400
    case Failed => 500
    case Created(_) => 200
  }

  /** `!token`: the cookie is missing or empty. */
  predicate HasToken(token: Option<string>)
  {
    token.Some? && token.value != ""
  }

  /** `!repository || !branchName || !title || !tests || tests.length === 0` fails. */
  predicate Complete(req: PrRequest)
  {
    req.repository != "" && req.branchName != "" && req.title != "" && req.tests != []
  }

  /** An ok reply whose body parses: anything else makes the route throw. */
  predicate OkJson(r: Reply)
  {
    r.Answered? && r.ok && r.json.Some?
  }

  /** A branch-creation reply the route goes on from: ok, or an error whose message
      contains "already exists". */
  predicate BranchReady(r: Reply)
  {
    r.Answered? &&
    (r.ok || (r.json.Some? && r.json.value.message.Some? && Contains(r.json.value.message.value, AlreadyExists)))
  }

  /** The write of one test file to branch `branch`. The content is the code before its
      base64 encoding. */
  function WriteCall(repo: string, branch: string, t: PrTest): Call
  {
    PutFile(repo, TestsDir + t.fileName, AddPrefix + t.title, t.code, branch)
  }

  /** The writes of `tests.map`, in test order. */
  function Writes(repo: string, branch: string, tests: seq<PrTest>): (ws: seq<Call>)
    ensures |ws| == |tests|
  {
    seq(|tests|, i requires 0 <= i < |tests| => WriteCall(repo, branch, tests[i]))
  }

  /** Some call among `calls` threw. */
  ghost predicate AnyThrew(up: Call -> Reply, calls: seq<Call>)
  {
    exists i :: 0 <= i < |calls| && up(calls[i]).Threw?
  }

  /** The route, as a function of the token, the parsed body (`None` when it does not
      parse) and the upstream service. */
  ghost function Workflow(token: Option<string>, body: Option<PrRequest>, up: Call -> Reply): Run
  {
    if !HasToken(token) then Run(Unauthorized, [])
    else if body.None? then Run(Failed, [])
    else if !Complete(body.value) then Run(MissingFields, [])
    else Upstream(body.value, up)
  }

  /** The upstream steps, from reading the repository to opening the pull request. */
  ghost function Upstream(req: PrRequest, up: Call -> Reply): Run
  {
    var c1 := GetRepo(req.repository);
    if !OkJson(up(c1)) then Run(Failed, [c1])
    else
      var defaultBranch := up(c1).json.value.defaultBranch;
      var c2 := GetRef(req.repository, defaultBranch);
      if !OkJson(up(c2)) || up(c2).json.value.sha.None? then Run(Failed, [c1, c2])
      else
        var c3 := CreateRef(req.repository, HeadsPrefix + req.branchName, up(c2).json.value.sha.value);
        if !BranchReady(up(c3)) then Run(Failed, [c1, c2, c3])
        else
          var ws := Writes(req.repository, req.branchName, req.tests);
          if AnyThrew(up, ws) then Run(Failed, [c1, c2, c3] + ws)
          else
            var c5 := CreatePull(req.repository, req.title, req.description, req.branchName, defaultBranch);
            Run(if OkJson(up(c5)) then Created(up(c5).json.value) else Failed, [c1, c2, c3] + ws + [c5])
  }

  /** `POST`: the awaited calls one after the other, with an early return at each failure. */
  method CreatePullRequest(token: Option<string>, body: Option<PrRequest>, up: Call -> Reply)
    returns (outcome: Outcome, trace: seq<Call>)
    ensures Run(outcome, trace) == Workflow(token, body, up)
  {
    trace := [];
    if !HasToken(token) {
      return Unauthorized, trace;
    }
    if body.None? {
      return Failed, trace;
    }
    var req := body.value;
    if !Complete(req) {
      return MissingFields, trace;
    }
    var repoCall := GetRepo(req.repository);
    trace := trace + [repoCall];
    var repoResponse := up(repoCall);
    if !OkJson(repoResponse) {
      return Failed, trace;
    }
    var defaultBranch := repoResponse.json.value.defaultBranch;
    var refCall := GetRef(req.repository, defaultBranch);
    trace := trace + [refCall];
    var branchResponse := up(refCall);
    if !OkJson(branchResponse) || branchResponse.json.value.sha.None? {
      return Failed, trace;
    }
    var baseSha := branchResponse.json.value.sha.value;
    var createCall := CreateRef(req.repository, HeadsPrefix + req.branchName, baseSha);
    trace := trace + [createCall];
    if !BranchReady(up(createCall)) {
      return Failed, trace;
    }
    ghost var head := trace;
    ghost var ws := Writes(req.repository, req.branchName, req.tests);
    var writeThrew := false;
    for i := 0 to |req.tests|
      invariant trace == head + ws[..i]
      invariant writeThrew <==> AnyThrew(up, ws[..i])
    {
      var call := WriteCall(req.repository, req.branchName, req.tests[i]);
      assert call == ws[i];
      assert ws[..i + 1] == ws[..i] + [call];
      trace := trace + [call];
      if up(call).Threw? {
        writeThrew := true;
      }
      assert writeThrew <==> AnyThrew(up, ws[..i + 1]) by {
        if up(call).Threw? {
          assert ws[..i + 1][i] == call;
        }
        if AnyThrew(up, ws[..i]) {
          var j :| 0 <= j < i && up(ws[..i][j]).Threw?;
          assert ws[..i + 1][j] == ws[..i][j];
        }
        if AnyThrew(up, ws[..i + 1]) && !up(call).Threw? {
          var j :| 0 <= j < i + 1 && up(ws[..i + 1][j]).Threw?;
          assert j < i && ws[..i][j] == ws[..i + 1][j];
        }
      }
    }
    assert ws[..|req.tests|] == ws;
    if writeThrew {
      return Failed, trace;
    }
    var pullCall := CreatePull(req.repository, req.title, req.description, req.branchName, defaultBranch);
    trace := trace + [pullCall];
    var prResponse := up(pullCall);
    if !OkJson(prResponse) {
      return Failed, trace;
    }
    return Created(prResponse.json.value), trace;
  }

  // ---------------------------------------------------------------------------
  // Properties of the route

  /** 401 exactly when the token is missing or empty, and then no call is made. */
  lemma UnauthorizedIff(token: Option<string>, body: Option<PrRequest>, up: Call -> Reply)
    ensures var run := Workflow(token, body, up);
      && (run.outcome == Unauthorized <==> !HasToken(token))
      && (run.outcome == Unauthorized ==> run.calls == [])
  {
  }

  /** 400 exactly when a token is there and a required field is missing or empty, and
      then no call is made. */
  lemma MissingFieldsIff(token: Option<string>, body: Option<PrRequest>, up: Call -> Reply)
    ensures var run := Workflow(token, body, up);
      && (run.outcome == MissingFields <==> HasToken(token) && body.Some? && !Complete(body.value))
      && (run.outcome == MissingFields ==> run.calls == [])
  {
  }

  /** No upstream call is made before the token and the fields have been checked. */
  lemma ValidationFirst(token: Option<string>, body: Option<PrRequest>, up: Call -> Reply)
    requires Workflow(token, body, up).calls != []
    ensures HasToken(token) && body.Some? && Complete(body.value)
  {
  }

  /** The stage of a call: repository, ref, branch creation, file write, pull request. */
  function Stage(c: Call): nat
  {
    match c
    case GetRepo(_) => 0
    case GetRef(_, _) => 1
    case CreateRef(_, _, _) => 2
    case PutFile(_, _, _, _, _) => 3
    case CreatePull(_, _, _, _, _) => 4
  }

  /** The stage the `i`-th call belongs to when there are `n` tests. */
  function StageAt(i: nat, n: nat): nat
  {
    if i < 3 then i else if i < 3 + n then 3 else 4
  }

  /** Calls are made in the order repository, ref, branch creation, one write per test,
      pull request, and the run stops at the first failure. */
  lemma CallOrder(req: PrRequest, up: Call -> Reply)
    ensures var run := Upstream(req, up);
      && 1 <= |run.calls| <= 4 + |req.tests|
      && (forall i :: 0 <= i < |run.calls| ==> Stage(run.calls[i]) == StageAt(i, |req.tests|))
      && (|run.calls| < 4 + |req.tests| ==> run.outcome == Failed)
      && forall i :: 0 <= i < |run.calls| ==> run.calls[i].repo == req.repository
  {
    var run := Upstream(req, up);
    var ws := Writes(req.repository, req.branchName, req.tests);
    if |run.calls| > 3 {
      forall i | 3 <= i < 3 + |req.tests| && i < |run.calls|
        ensures run.calls[i] == ws[i - 3]
      {
      }
    }
  }

  /** The new branch is `refs/heads/<branchName>`, created at the head commit of the
      default branch that the repository reply names. */
  lemma BranchRef(req: PrRequest, up: Call -> Reply)
    ensures var run := Upstream(req, up);
      |run.calls| >= 3 ==>
        && run.calls[1] == GetRef(req.repository, up(run.calls[0]).json.value.defaultBranch)
        && run.calls[2] == CreateRef(req.repository, HeadsPrefix + req.branchName, up(run.calls[1]).json.value.sha.value)
  {
  }

  /** A failed branch creation whose message contains "already exists" is tolerated:
      the writes follow. Any other failed creation, or one that threw, ends the run
      with 500 before any write. */
  lemma BranchExistsTolerated(req: PrRequest, up: Call -> Reply)
    ensures var run := Upstream(req, up);
      |run.calls| >= 3 ==>
        var r := up(run.calls[2]);
        && (BranchReady(r) <==> |run.calls| > 3)
        && (!BranchReady(r) ==> run.outcome == Failed && |run.calls| == 3)
  {
  }

  /** One write per test, in test order, each to `tests/<fileName>` on the new branch
      with the message `Add <title>`. */
  lemma WritesShape(req: PrRequest, up: Call -> Reply)
    ensures var run := Upstream(req, up);
      var n := |req.tests|;
      |run.calls| > 3 ==>
        && |run.calls| >= 3 + n
        && forall i :: 0 <= i < n ==>
             run.calls[3 + i] == PutFile(req.repository, TestsDir + req.tests[i].fileName,
                                         AddPrefix + req.tests[i].title, req.tests[i].code, req.branchName)
  {
    var run := Upstream(req, up);
    var ws := Writes(req.repository, req.branchName, req.tests);
    if |run.calls| > 3 {
      assert run.calls[3..3 + |req.tests|] == ws;
      forall i | 0 <= i < |req.tests| ensures run.calls[3 + i] == ws[i] {
        assert run.calls[3..3 + |req.tests|][i] == run.calls[3 + i];
      }
    }
  }

  /** The pull request goes from the new branch into the default branch, with the
      request's title and description, and the route returns what it answers. */
  lemma PullRequestCall(req: PrRequest, up: Call -> Reply)
    ensures var run := Upstream(req, up);
      var n := |req.tests|;
      |run.calls| == 4 + n ==>
        && run.calls[3 + n] == CreatePull(req.repository, req.title, req.description, req.branchName,
                                          up(run.calls[0]).json.value.defaultBranch)
        && (run.outcome.Created? <==> OkJson(up(run.calls[3 + n])))
        && (run.outcome.Created? ==> run.outcome.pullRequest == up(run.calls[3 + n]).json.value)
  {
  }

  /** A call that threw always ends in 500. */
  lemma ThrewFails(req: PrRequest, up: Call -> Reply, i: nat)
    requires i < |Upstream(req, up).calls| && up(Upstream(req, up).calls[i]).Threw?
    ensures Upstream(req, up).outcome == Failed
  {
    var run := Upstream(req, up);
    var n := |req.tests|;
    var ws := Writes(req.repository, req.branchName, req.tests);
    if 3 <= i < 3 + n && |run.calls| > 3 {
      assert run.calls[i] == ws[i - 3];
    }
  }

  /** Two upstreams that differ only in the status and body of write replies (threw or
      not being the same) give the same run: a write's status is never looked at. */
  lemma WriteStatusIgnored(req: PrRequest, up1: Call -> Reply, up2: Call -> Reply)
    requires forall c: Call :: !c.PutFile? ==> up1(c) == up2(c)
    requires forall c: Call :: c.PutFile? ==> (up1(c).Threw? <==> up2(c).Threw?)
    ensures Upstream(req, up1) == Upstream(req, up2)
  {
    var ws := Writes(req.repository, req.branchName, req.tests);
    assert forall i :: 0 <= i < |ws| ==> ws[i].PutFile?;
    assert AnyThrew(up1, ws) <==> AnyThrew(up2, ws);
  }

  /** The upstream steps end in a pull request exactly when the repository and ref reads
      are ok and parse, the ref has a sha, the branch is ready, no write throws and the pull
      request reply is ok and parses; the route then answers with that reply. */
  lemma UpstreamCreatedIff(req: PrRequest, up: Call -> Reply)
    ensures var c1 := GetRepo(req.repository);
      Upstream(req, up).outcome.Created? <==>
        && OkJson(up(c1))
        && var c2 := GetRef(req.repository, up(c1).json.value.defaultBranch);
           && OkJson(up(c2)) && up(c2).json.value.sha.Some?
           && var c3 := CreateRef(req.repository, HeadsPrefix + req.branchName, up(c2).json.value.sha.value);
              && BranchReady(up(c3))
              && !AnyThrew(up, Writes(req.repository, req.branchName, req.tests))
              && var c5 := CreatePull(req.repository, req.title, req.description, req.branchName,
                                      up(c1).json.value.defaultBranch);
                 && OkJson(up(c5))
                 && Upstream(req, up).outcome == Created(up(c5).json.value)
  {
  }

  /** The route succeeds exactly when validation passes, every read parses, the branch is
      ready, no write throws and the pull request is answered with an ok, parsable reply;
      the pull request call is then the last of 4 + n calls. */
  lemma CreatedIff(token: Option<string>, body: Option<PrRequest>, up: Call -> Reply)
    ensures var run := Workflow(token, body, up);
      run.outcome.Created? <==>
        && HasToken(token) && body.Some? && Complete(body.value)
        && |run.calls| == 4 + |body.value.tests|
        && OkJson(up(run.calls[3 + |body.value.tests|]))
    ensures Workflow(token, body, up).outcome.Created? <==>
        && HasToken(token) && body.Some? && Complete(body.value)
        && Upstream(body.value, up).outcome.Created?
  {
    if HasToken(token) && body.Some? && Complete(body.value) {
      CallOrder(body.value, up);
    }
  }
}
