/** The request handlers of app/routes.py that change or guard the judge's state:
    sign-up and login (usernames are lower-cased), the contest page's registration
    toggle, the problem page's visibility gate and create-then-dispatch, and the
    owner-restricted progress API. The database session is the `Database` class;
    the clock, the signed-in user and form validation are parameters. */
module Routes {
  import opened Wrappers
  import opened Queries
  import opened Models

  datatype User = User(id: nat, username: string, email: string, passwordHash: string, isAdmin: bool)

  /** Why a handler ends in an HTTP 500 instead of a page. */
  datatype Fault =
    | MissingRow                       // attribute access on a row `query.get` did not find
    | NullStartTime                    // comparing the clock with a contest's NULL start time
    | DuplicateUser                    // the unique username or email column rejected the commit
    | LaunchFailed(error: LaunchError) // `launch_task` raised, after the submission was committed
    | NoResponse                       // the view returned nothing

  datatype Response =
    | Redirect
    | ContestPage(registration: Option<Registration>)
    | ProblemPage(submission: Option<Submission>)
    | Progress(progress: string, status: int)
    | ServerError(fault: Fault)

  function LowerChar(c: char): char
  {
    if 'A' <= c <= 'Z' then (c as int + ('a' as int - 'A' as int)) as char else c
  }

  /** `str.lower()` on ASCII letters. */
  function Lower(s: string): (r: string)
    ensures |r| == |s|
    ensures forall i :: 0 <= i < |s| ==> r[i] == LowerChar(s[i])
    ensures forall i :: 0 <= i < |r| ==> !('A' <= r[i] <= 'Z')
  {
    if s == [] then [] else [LowerChar(s[0])] + Lower(s[1..])
  }

  /** Lowering a stored (already lowered) username gives it back. */
  lemma {:induction false} LowerIdempotent(s: string)
    ensures Lower(Lower(s)) == Lower(s)
  {
    if s != [] {
      LowerIdempotent(s[1..]);
      assert Lower(s) == [LowerChar(s[0])] + Lower(s[1..]);
    }
  }

  predicate HasUsername(u: User, name: string) { u.username == name }

  /** `User.query.filter_by(username=name.lower()).first()`. */
  function FindUser(users: seq<User>, name: string): (r: Option<User>)
    ensures r.Some? ==> r.value in users && r.value.username == Lower(name)
    ensures r.None? <==> forall i :: 0 <= i < |users| ==> users[i].username != Lower(name)
  {
    match FirstWhere(users, (u: User) => HasUsername(u, Lower(name)))
    case Some(i) => Some(users[i])
    case None => None
  }

  predicate EmailTaken(users: seq<User>, email: string)
  {
    exists i :: 0 <= i < |users| && users[i].email == email
  }

  /** The unique constraints on `User.username` and `User.email`. */
  ghost predicate UsersUnique(users: seq<User>)
  {
    && (forall i, j :: 0 <= i < |users| && 0 <= j < |users| && users[i].username == users[j].username ==> i == j)
    && (forall i, j :: 0 <= i < |users| && 0 <= j < |users| && users[i].email == users[j].email ==> i == j)
  }

  /** Login is case-insensitive: whatever the case of the name typed, it finds the
      one user whose stored name is its lower-cased form. */
  lemma {:induction false} LoginFindsUserIgnoringCase(users: seq<User>, stored: User, typed: string)
    requires UsersUnique(users)
    requires stored in users
    requires stored.username == Lower(typed)
    ensures FindUser(users, typed) == Some(stored)
  {
    var k :| 0 <= k < |users| && users[k] == stored;
    var found := FindUser(users, typed);
    assert found.Some?;
    var i :| 0 <= i < |users| && users[i] == found.value;
    assert users[i].username == users[k].username;
  }

  /** At most one registration per (user, contest); the toggle keeps it so. */
  ghost predicate OneRegistrationPerPair(registrations: seq<Registration>)
  {
    forall i, j ::
      0 <= i < |registrations| && 0 <= j < |registrations| &&
      IsRegistrationOf(registrations[i], registrations[j].userId, registrations[j].contestId)
      ==> i == j
  }

  /** The contest page's toggle on the registration table: delete the user's
      registration if there is one, otherwise add a new one under `freshId`. */
  function ToggleRegistration(registrations: seq<Registration>, userId: nat, contestId: nat, freshId: nat): seq<Registration>
  {
    match RegistrationIndex(registrations, userId, contestId)
    case Some(i) => registrations[..i] + registrations[i + 1..]
    case None => registrations + [NewRegistration(freshId, userId, contestId)]
  }

  /** The toggle flips whether the user is registered. */
  lemma {:induction false} ToggleFlips(registrations: seq<Registration>, userId: nat, contestId: nat, freshId: nat)
    requires OneRegistrationPerPair(registrations)
    ensures IsRegistered(ToggleRegistration(registrations, userId, contestId, freshId), userId, contestId)
        <==> !IsRegistered(registrations, userId, contestId)
  {
    var after := ToggleRegistration(registrations, userId, contestId, freshId);
    match RegistrationIndex(registrations, userId, contestId)
    case Some(i) =>
      forall j | 0 <= j < |after|
        ensures !IsRegistrationOf(after[j], userId, contestId)
      {
        var k := if j < i then j else j + 1;
        assert after[j] == registrations[k];
        assert IsRegistrationOf(registrations[i], registrations[k].userId, registrations[k].contestId) ==> i == k;
      }
    case None =>
      assert IsRegistrationOf(after[|registrations|], userId, contestId);
  }

  /** The toggle keeps at most one registration per (user, contest). */
  lemma {:induction false} TogglePreservesOnePerPair(registrations: seq<Registration>, userId: nat, contestId: nat, freshId: nat)
    requires OneRegistrationPerPair(registrations)
    ensures OneRegistrationPerPair(ToggleRegistration(registrations, userId, contestId, freshId))
  {
    var after := ToggleRegistration(registrations, userId, contestId, freshId);
    match RegistrationIndex(registrations, userId, contestId)
    case Some(i) =>
      forall a, b | 0 <= a < |after| && 0 <= b < |after| && IsRegistrationOf(after[a], after[b].userId, after[b].contestId)
        ensures a == b
      {
        var ka := if a < i then a else a + 1;
        var kb := if b < i then b else b + 1;
        assert after[a] == registrations[ka] && after[b] == registrations[kb];
      }
    case None =>
      var n := |registrations|;
      forall a, b | 0 <= a < |after| && 0 <= b < |after| && IsRegistrationOf(after[a], after[b].userId, after[b].contestId)
        ensures a == b
      {
        if a < n && b < n {
          assert after[a] == registrations[a] && after[b] == registrations[b];
        }
      }
  }

  /** Registering appends exactly one row, for this user and contest, under the fresh
      id and with the column defaults: score 0 and no last submission. */
  lemma ToggleRegistersWithDefaults(registrations: seq<Registration>, userId: nat, contestId: nat, freshId: nat)
    requires !IsRegistered(registrations, userId, contestId)
    ensures var after := ToggleRegistration(registrations, userId, contestId, freshId);
      && |after| == |registrations| + 1 && after[..|registrations|] == registrations
      && var added := after[|registrations|];
      && added.id == freshId && IsRegistrationOf(added, userId, contestId)
      && added.score == 0 && added.lastSubmission.None?
  {
  }

  /** Unregistering deletes exactly the row the lookup found, and nothing else. */
  lemma {:induction false} ToggleUnregistersOneRow(registrations: seq<Registration>, userId: nat, contestId: nat, freshId: nat)
    requires IsRegistered(registrations, userId, contestId)
    ensures var after := ToggleRegistration(registrations, userId, contestId, freshId);
      && |after| == |registrations| - 1
      && FindRegistration(registrations, userId, contestId).Some?
      && multiset(after) + multiset{FindRegistration(registrations, userId, contestId).value} == multiset(registrations)
  {
    var i := RegistrationIndex(registrations, userId, contestId).value;
    assert registrations == registrations[..i] + [registrations[i]] + registrations[i + 1..];
  }

  /** Toggling twice restores whether the user is registered. */
  lemma ToggleTwiceRestores(registrations: seq<Registration>, userId: nat, contestId: nat, freshId1: nat, freshId2: nat)
    requires OneRegistrationPerPair(registrations)
    ensures var twice := ToggleRegistration(ToggleRegistration(registrations, userId, contestId, freshId1), userId, contestId, freshId2);
      IsRegistered(twice, userId, contestId) <==> IsRegistered(registrations, userId, contestId)
  {
    var once := ToggleRegistration(registrations, userId, contestId, freshId1);
    ToggleFlips(registrations, userId, contestId, freshId1);
    TogglePreservesOnePerPair(registrations, userId, contestId, freshId1);
    ToggleFlips(once, userId, contestId, freshId2);
  }

  /** Rows of other users and other contests are neither added nor removed. */
  lemma {:induction false} ToggleLeavesOtherPairs(registrations: seq<Registration>, userId: nat, contestId: nat, freshId: nat, r: Registration)
    requires !IsRegistrationOf(r, userId, contestId)
    ensures multiset(ToggleRegistration(registrations, userId, contestId, freshId))[r] == multiset(registrations)[r]
  {
    match RegistrationIndex(registrations, userId, contestId)
    case Some(i) =>
      assert registrations == registrations[..i] + [registrations[i]] + registrations[i + 1..];
    case None =>
  }

  /** Registration is open while the contest has not started (inclusive). */
  predicate RegistrationOpen(contest: Contest, now: Time)
  {
    contest.startTime.Some? && now <= contest.startTime.value
  }

  /** A contest problem is hidden while its contest has not started (inclusive). */
  predicate ProblemHidden(contest: Option<Contest>, now: Time)
  {
    contest.Some? && contest.value.startTime.Some? && contest.value.startTime.value >= now
  }

  /** The problem has a contest whose start time is NULL: both gates raise on it. */
  predicate StartUnknown(contest: Option<Contest>)
  {
    contest.Some? && contest.value.startTime.None?
  }

  /** The two gates use opposite-looking comparisons but agree: a contest's problems
      are hidden exactly while registration is open, including the start instant. */
  lemma RegistrationWindowIsHiddenWindow(contest: Contest, now: Time)
    requires contest.startTime.Some?
    ensures RegistrationOpen(contest, now) <==> ProblemHidden(Some(contest), now)
    ensures RegistrationOpen(contest, contest.startTime.value) && ProblemHidden(Some(contest), contest.startTime.value)
  {
  }

  /** `current_user.submissions.filter_by(id=id).first()`, as a row index. This is
      `FirstWhere` again, written out because its test reads the submission objects'
      fields, and `FirstWhere` takes only a predicate that reads nothing. */
  function OwnedSubmissionIndex(submissions: seq<Submission>, userId: nat, id: nat): (r: Option<nat>)
    reads submissions
    ensures r.Some? ==> r.value < |submissions| && submissions[r.value].userId == userId && submissions[r.value].id == Some(id)
    ensures r.None? <==> forall j :: 0 <= j < |submissions| ==> !(submissions[j].userId == userId && submissions[j].id == Some(id))
  {
    if submissions == [] then None
    else if submissions[0].userId == userId && submissions[0].id == Some(id) then Some(0)
    else match OwnedSubmissionIndex(submissions[1..], userId, id)
      case Some(i) => Some(i + 1)
      case None => None
  }

  /** The database session: tables in primary-key order, the id counters, and the
      evaluation queue of the application. */
  class Database {
    var users: seq<User>
    var contests: map<nat, Contest>
    var problems: map<nat, Problem>
    var registrations: seq<Registration>
    var submissions: seq<Submission>
    var nextUserId: nat
    var nextRegistrationId: nat
    var nextSubmissionId: nat
    const queue: TaskQueue

    ghost predicate Valid()
      reads this, queue, submissions
    {
      && queue.Valid()
      && (forall k :: k in problems ==> problems[k].id == k)
      && (forall k :: k in contests ==> contests[k].id == k)
      && UsersUnique(users)
      && (forall i :: 0 <= i < |users| ==> users[i].id < nextUserId)
      && (forall i :: 0 <= i < |registrations| ==> registrations[i].id < nextRegistrationId)
      && OneRegistrationPerPair(registrations)
      && (forall i :: 0 <= i < |submissions| ==>
            submissions[i].id.Some? && submissions[i].id.value < nextSubmissionId)
      && (forall i, j ::
            (0 <= i < |submissions| && 0 <= j < |submissions| && submissions[i].id == submissions[j].id) ==> i == j)
    }

    constructor (contests: map<nat, Contest>, problems: map<nat, Problem>, queue: TaskQueue)
      requires queue.Valid()
      requires forall k :: k in problems ==> problems[k].id == k
      requires forall k :: k in contests ==> contests[k].id == k
      ensures Valid() && this.queue == queue
      ensures this.contests == contests && this.problems == problems
      ensures users == [] && registrations == [] && submissions == []
    {
      this.contests := contests;
      this.problems := problems;
      this.queue := queue;
      users, registrations, submissions := [], [], [];
      nextUserId, nextRegistrationId, nextSubmissionId := 0, 0, 0;
    }

    /** `problem.contest`: None for a practice problem (or a dangling key). */
    function ContestOf(problem: Problem): (r: Option<Contest>)
      reads this
      ensures r.Some? <==> problem.contestId.Some? && problem.contestId.value in contests
      ensures r.Some? ==> r.value == contests[problem.contestId.value]
    {
      if problem.contestId.Some? && problem.contestId.value in contests
      then Some(contests[problem.contestId.value]) else None
    }

    /** `register`: store the lower-cased username, unless the form is invalid or the
        unique columns reject it. */
    method Register(username: string, email: string, password: string, formValid: bool,
                    hash: string -> string) returns (resp: Response)
      requires Valid()
      modifies this`users, this`nextUserId
      ensures Valid()
      ensures !formValid ==> resp == Redirect && users == old(users)
      ensures formValid && (FindUser(old(users), username).Some? || EmailTaken(old(users), email)) ==>
        resp == ServerError(DuplicateUser) && users == old(users)
      ensures formValid && FindUser(old(users), username).None? && !EmailTaken(old(users), email) ==>
        && resp == Redirect
        && users == old(users) + [User(old(nextUserId), Lower(username), email, hash(password), false)]
    {
      if !formValid {
        return Redirect;
      }
      if FindUser(users, username).Some? || EmailTaken(users, email) {
        return ServerError(DuplicateUser);
      }
      var user := User(nextUserId, Lower(username), email, hash(password), false);
      users := users + [user];
      nextUserId := nextUserId + 1;
      resp := Redirect;
    }

    /** `login`: the user found by the lower-cased name, if the password matches. */
    method Login(username: string, password: string, formValid: bool,
                 checkPassword: (string, string) -> bool) returns (signedIn: Option<User>)
      ensures signedIn.Some? ==> formValid && signedIn.value in users && signedIn.value.username == Lower(username)
      ensures signedIn.Some? ==> checkPassword(signedIn.value.passwordHash, password)
      ensures signedIn.None? ==>
        (!formValid || FindUser(users, username).None?
         || !checkPassword(FindUser(users, username).value.passwordHash, password))
    {
      if !formValid {
        return None;
      }
      var user := FindUser(users, username);
      if user.None? || !checkPassword(user.value.passwordHash, password) {
        return None;
      }
      signedIn := user;
    }

    /** `contest`: an authenticated user with a valid form toggles their
        registration while the contest has not started; everyone else only looks. */
    method ContestRoute(contestId: nat, currentUser: Option<nat>, formValid: bool, now: Time) returns (resp: Response)
      requires Valid()
      modifies this`registrations, this`nextRegistrationId
      ensures Valid()
      ensures currentUser.None? ==> resp == ContestPage(None) && registrations == old(registrations)
      ensures currentUser.Some? && formValid && contestId !in contests ==>
        resp == ServerError(MissingRow) && registrations == old(registrations)
      ensures currentUser.Some? && formValid && contestId in contests && contests[contestId].startTime.None? ==>
        resp == ServerError(NullStartTime) && registrations == old(registrations)
      ensures currentUser.Some? &&
              (!formValid ||
               (contestId in contests && contests[contestId].startTime.Some? && !RegistrationOpen(contests[contestId], now))) ==>
        && registrations == old(registrations)
        && resp == ContestPage(FindRegistration(registrations, currentUser.value, contestId))
      ensures currentUser.Some? && formValid && contestId in contests && RegistrationOpen(contests[contestId], now) ==>
        && registrations == ToggleRegistration(old(registrations), currentUser.value, contestId, old(nextRegistrationId))
        && (IsRegistered(registrations, currentUser.value, contestId)
            <==> !IsRegistered(old(registrations), currentUser.value, contestId))
        && resp == ContestPage(
             if IsRegistered(old(registrations), currentUser.value, contestId) then None
             else Some(NewRegistration(old(nextRegistrationId), currentUser.value, contestId)))
    {
      if currentUser.None? {
        return ContestPage(None);
      }
      var userId := currentUser.value;
      var registration := FindRegistration(registrations, userId, contestId);
      if !formValid {
        return ContestPage(registration);
      }
      if contestId !in contests {
        return ServerError(MissingRow);
      }
      if contests[contestId].startTime.None? {
        return ServerError(NullStartTime);
      }
      if !RegistrationOpen(contests[contestId], now) {
        return ContestPage(registration);
      }
      TogglePreservesOnePerPair(registrations, userId, contestId, nextRegistrationId);
      ToggleFlips(registrations, userId, contestId, nextRegistrationId);
      var index := RegistrationIndex(registrations, userId, contestId);
      if index.Some? {
        registrations := registrations[..index.value] + registrations[index.value + 1..];
        registration := None;
      } else {
        registration := Some(NewRegistration(nextRegistrationId, userId, contestId));
        registrations := registrations + [registration.value];
        nextRegistrationId := nextRegistrationId + 1;
      }
      resp := ContestPage(registration);
    }

    /** `problem`: hidden contest problems redirect; otherwise a valid form from a
        signed-in user creates a submission, commits it (it gets its id), and only
        then dispatches it. */
    method ProblemRoute(problemId: nat, currentUser: Option<nat>, formValid: bool,
                        code: string, language: string, now: Time) returns (resp: Response)
      requires Valid()
      modifies this`submissions, this`nextSubmissionId, queue`jobs, queue`nextId
      ensures Valid()
      ensures problemId !in problems ==>
        resp == ServerError(MissingRow) && submissions == old(submissions) && queue.jobs == old(queue.jobs)
      ensures problemId in problems && StartUnknown(ContestOf(problems[problemId])) ==>
        resp == ServerError(NullStartTime) && submissions == old(submissions) && queue.jobs == old(queue.jobs)
      ensures problemId in problems && ProblemHidden(ContestOf(problems[problemId]), now) ==>
        resp == Redirect && submissions == old(submissions) && queue.jobs == old(queue.jobs)
      ensures problemId in problems && !StartUnknown(ContestOf(problems[problemId]))
              && !ProblemHidden(ContestOf(problems[problemId]), now)
              && !(formValid && currentUser.Some?) ==>
        resp == ProblemPage(None) && submissions == old(submissions) && queue.jobs == old(queue.jobs)
      ensures problemId in problems && !StartUnknown(ContestOf(problems[problemId]))
              && !ProblemHidden(ContestOf(problems[problemId]), now)
              && formValid && currentUser.Some? ==>
        && |submissions| == |old(submissions)| + 1
        && submissions[..|old(submissions)|] == old(submissions)
        && var s := submissions[|old(submissions)|];
        && fresh(s)
        && s.id == Some(old(nextSubmissionId))
        && s.userId == currentUser.value && s.problemId == problemId
        && s.code == code && s.language == language && s.timestamp == now
        && s.status == NotEvaluated && s.progress == DefaultProgress
        && (resp.ServerError? ==> s.taskId.None? && queue.jobs == old(queue.jobs))
        && (ContestOf(problems[problemId]).None? ==> resp == ServerError(LaunchFailed(ContestMissing)))
        && (ContestOf(problems[problemId]).Some? ==>
              var job := LaunchJob(Some(old(nextSubmissionId)), language, code, problems[problemId],
                                   ContestOf(problems[problemId]).value, registrations, currentUser.value, now);
              && (job.Err? ==> resp == ServerError(LaunchFailed(job.error)))
              && (job.Ok? && !queue.reachable ==> resp == ServerError(LaunchFailed(QueueUnavailable)))
              && (job.Ok? && queue.reachable ==>
                    && resp == ProblemPage(Some(s))
                    && s.taskId.Some? && s.taskId.value !in old(queue.jobs)
                    && queue.jobs == old(queue.jobs)[s.taskId.value := Job(s.taskId.value, job.value, map[])]))
    {
      if problemId !in problems {
        return ServerError(MissingRow);
      }
      var problem := problems[problemId];
      var contest := ContestOf(problem);
      if StartUnknown(contest) {
        return ServerError(NullStartTime);
      }
      if ProblemHidden(contest, now) {
        return Redirect;
      }
      if !(formValid && currentUser.Some?) {
        return ProblemPage(None);
      }
      var submission := new Submission(currentUser.value, problemId, code, language, now);
      submission.id := Some(nextSubmissionId);
      submissions := submissions + [submission];
      nextSubmissionId := nextSubmissionId + 1;
      var launched := submission.LaunchTask(problem, contest, registrations, queue);
      match launched
      case Ok(_) => resp := ProblemPage(Some(submission));
      case Err(e) => resp := ServerError(LaunchFailed(e));
    }

    /** `get_submission`: progress and status of one of the signed-in user's own
        submissions; anything else is a server error. Writes nothing. */
    method GetSubmission(id: nat, currentUser: Option<nat>) returns (resp: Response)
      requires Valid()
      ensures resp.Progress? || resp.ServerError?
      ensures currentUser.None? ==> resp == ServerError(NoResponse)
      ensures resp.Progress? <==>
        (currentUser.Some? &&
         exists i :: 0 <= i < |submissions| && submissions[i].userId == currentUser.value && submissions[i].id == Some(id))
      ensures forall i :: 0 <= i < |submissions| && submissions[i].id == Some(id) && resp.Progress? ==>
        && submissions[i].userId == currentUser.value
        && resp == Progress(ResolveProgress(queue.Fetch(submissions[i].taskId), submissions[i].progress),
                            submissions[i].status)
    {
      if currentUser.None? {
        return ServerError(NoResponse);
      }
      var index := OwnedSubmissionIndex(submissions, currentUser.value, id);
      if index.None? {
        return ServerError(MissingRow);
      }
      var submission := submissions[index.value];
      var progress := submission.GetProgress(queue);
      resp := Progress(progress, submission.status);
    }
  }
}
