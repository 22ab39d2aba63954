# Online judge: submission dispatch, progress and contest gates

A Dafny model of the core of a contest judging web application (Flask, SQLAlchemy,
Redis/rq). It covers:

- **Dispatch** (`Submission.launch_task`). The model looks up the submitter's
  registration for the problem's contest. It decides whether the submission scores:
  it does only when a registration exists and the submission is not later than the
  contest end (inclusive). It converts the problem's limits (megabytes to bytes,
  seconds to milliseconds), enqueues exactly one evaluation job, and records the
  job handle on the submission.
- **Progress** (`get_rq_job`, `get_progress`). The model fetches the job from the
  store. It reports the live `progress` metadata, or `"0/0"` when the evaluator has
  not reported yet. It falls back to the stored progress when Redis is unreachable
  or the job is unknown. It writes nothing.
- **Route-level state rules** (`app/routes.py`):
  - Sign-up stores lower-cased usernames, and login looks them up lower-cased.
  - The contest page toggles a registration, but only until the contest starts.
  - The problem page hides a contest's problems until the contest has started.
    Otherwise it commits a new submission and only then dispatches it.
  - The progress API answers only for the signed-in user's own submissions.

Module layout:

- `wrappers.dfy`: `Option` and `Result`.
- `queries.dfy`: `FirstWhere`, the `filter_by(...).first()` query over a table
  kept in primary-key order.
- `models.dfy`: module `Models` for app/models.py. It holds the records
  (`Contest`, `Problem`, `Registration`), the `Submission` class with its
  `LaunchTask` and `GetProgress` methods, and the `TaskQueue` class. `TaskQueue`
  stands for the rq queue and its Redis job store, with an abstract enqueue and
  fetch.
- `routes.dfy`: module `Routes` for app/routes.py. The database session is the
  `Database` class. The clock (`now`), the signed-in user, form validation and
  password hashing are parameters.

Failures that make the source raise are modelled as `ServerError` responses with
their cause:

- attribute access on a `None` row;
- a comparison or multiplication with a NULL column. The contest times, the problem's
  points and its limits are nullable columns, so they are `Option` values in the model;
- the unique username or email column rejecting a commit;
- a failure in `launch_task`: a practice problem, which has no contest; a NULL contest
  end for a registered submitter; a NULL time or memory limit; Redis being unreachable
  on enqueue;
- a view that returns nothing.

In particular, a submission is committed before `launch_task` runs. So when
`launch_task` fails, for example on a practice problem at `contest.id`, it fails
before any enqueue. The model keeps that behaviour: the submission stays stored with
no job handle.

## Model

| member | source | states |
|---|---|---|
| Queries.FirstWhere | app/models.py:108 | `.first()` of a filtered query: the index of the first matching row, and no earlier row matches; None exactly when no row matches |
| Models.RegistrationIndex | app/models.py:108 | the lookup finds the first registration of this user for this contest, and finds one exactly when the user is registered |
| Models.ScoringRegistrationId | app/models.py:107-112 | a registered user facing a NULL contest end fails with NullColumn, and only then; a registration id is passed exactly when the user is registered and the timestamp is at or before the contest end (inclusive); the id passed is that of the first such registration; with no registration, or after the end, it is None |
| Models.PayloadCarriesProblem | app/models.py:114-116 | the payload is built exactly when both limits are non-NULL, and fails with NullColumn otherwise; the job names `server.evaluate_submission`; memory is a whole number of MiB that converts back to the limit, and time is a whole number of seconds that converts back; problem id, points (possibly NULL), submission id, language, code and registration id travel unchanged |
| Models.TaskQueue.Enqueue | app/models.py:114-116 | when Redis is reachable, exactly one job is added under a handle never issued before, with the given arguments and empty metadata; otherwise nothing changes and no handle is returned |
| Models.TaskQueue.Fetch | app/models.py:125 | the fetch yields the stored job exactly when Redis is reachable and the handle is known; RedisError exactly when Redis is unreachable; NoSuchJobError otherwise, including a missing handle |
| Models.RqJob | app/models.py:123-129 | a job is returned exactly when the fetch succeeded, and it is the fetched job; both caught errors become None |
| Models.ResolveProgress | app/models.py:131-133 | after a successful fetch the result is the job's `progress` metadata, or `"0/0"` when that key is missing; after RedisError or NoSuchJobError it is the stored progress unchanged |
| Models.FreshJobProgress | app/models.py:131-133 | a just-enqueued job reports `"0/0"` while Redis is reachable, and the stored progress otherwise |
| Models.UndispatchedProgress | app/models.py:123-133 | a submission with no job handle always reports its stored progress |
| Models.Submission.constructor | app/models.py:89-103 | a new submission has no id and no job handle, status -2, progress `"0/0"` and no test-case detail |
| Models.Submission.LaunchTask | app/models.py:106-121 | a problem with no contest fails before any enqueue and leaves the handle unset; a NULL contest end (for a registered submitter) or a NULL limit fails with that error, as does an unreachable queue, all leaving the handle unset and the queue unchanged; otherwise exactly one job is enqueued, with the converted limits and the eligibility-gated registration id, and its fresh handle is stored and returned; nothing else on the submission changes |
| Models.Submission.GetProgress | app/models.py:131-133 | returns the resolved progress for the submission's handle and stored progress; falls back to the stored value without a handle or without Redis; modifies nothing |
| Routes.Lower | app/routes.py:27 | the lower-cased name has the same length, maps each character through ASCII lower-casing, and holds no upper-case letter |
| Routes.LowerIdempotent | app/routes.py:41 | lower-casing an already lower-cased (stored) name gives it back |
| Routes.FindUser | app/routes.py:41 | the user found has the lower-cased typed name; none is found exactly when no user has that name |
| Routes.LoginFindsUserIgnoringCase | app/routes.py:41 | with unique usernames, any typed name whose lower-cased form is a stored username finds exactly that user |
| Routes.ToggleFlips | app/routes.py:62-69 | with at most one registration per user and contest, a toggle flips whether the user is registered |
| Routes.TogglePreservesOnePerPair | app/routes.py:62-69 | a toggle keeps at most one registration per user and contest |
| Routes.ToggleTwiceRestores | app/routes.py:62-69 | two toggles restore whether the user is registered |
| Routes.ToggleRegistersWithDefaults | app/routes.py:66-68 | registering appends exactly one row for this user and contest, under the fresh id, with score 0 and no last submission |
| Routes.ToggleUnregistersOneRow | app/routes.py:62-64 | unregistering removes exactly the row the lookup found, and no other |
| Routes.ToggleLeavesOtherPairs | app/routes.py:59-69 | registrations of other users and other contests keep their multiplicity across a toggle |
| Routes.RegistrationWindowIsHiddenWindow | app/routes.py:61-80 | for a contest with a start time, registration is open exactly while its problems are hidden; at the start instant both hold |
| Routes.OwnedSubmissionIndex | app/routes.py:137 | finds a submission with this id authored by this user, and finds one exactly when one exists |
| Routes.Database.ContestOf | app/models.py:79 | a problem's contest is present exactly when its contest key names a stored contest, and it is that contest |
| Routes.Database.Register | app/routes.py:22-34 | with a valid form and a free username and email, exactly one user is appended, with the lower-cased name and a fresh id; an invalid form changes nothing; a taken username (compared lower-cased) or a taken email fails and changes nothing; the unique columns stay unique |
| Routes.Database.Login | app/routes.py:36-49 | a user is signed in only with a valid form, only as the user stored under the lower-cased name, and only when the password check accepts; otherwise nobody is |
| Routes.Database.ContestRoute | app/routes.py:52-73 | anonymous users and requests without a valid form, or after the start, leave registrations unchanged; a valid form for an unknown contest, or for a contest with a NULL start, fails and changes nothing; an authenticated valid request at or before the start toggles the user's registration, flips whether the user is registered, keeps at most one registration per user and contest, and shows None after deleting or the new registration after adding |
| Routes.Database.ProblemRoute | app/routes.py:76-103 | an unknown problem fails; a contest problem whose contest has a NULL start fails and creates nothing; one whose start is at or after `now` redirects and creates and dispatches nothing; otherwise a valid form from a signed-in user appends exactly one fresh submission, commits it with the next id (kept unique), and then dispatches it; the job carries that id; any launch failure (no contest, NULL column, Redis down) leaves it committed without a handle and the queue unchanged |
| Routes.Database.GetSubmission | app/routes.py:134-142 | answers with progress and status exactly when the user is signed in and owns a submission with that id; since submission ids are unique, the answer is the resolved progress and status of the one submission with that primary key; anonymous requests get no response; nothing is written |

## Left out

- app/__init__.py and onlinejudge.py: application, database, Redis and admin wiring and a shell context; they hold no logic.
- Pages that only render (`index`, `submission`, `problem_list`, `contest_list`, `submission_list`) and `logout`. Also `render_template`, `flash`, `redirect`, and the `json.loads` of stored test cases. These are framework or library calls. A template that fails on a missing contest is not modelled.
- Form validation (app/forms.py is not part of this model): each handler takes a `formValid` flag. The login form's `remember_me` and the `login_user` session write are not modelled: `Login` returns the signed-in user.
- Password hashing (werkzeug): `Register` takes the hash function and `Login` the check function as parameters. The salting of the real hash is not modelled.
- Routes.Lower: only ASCII letters are lower-cased. Python's `str.lower()` also maps non-ASCII letters.
- The Redis and rq network calls. `TaskQueue` is an in-memory stand-in. Job handles are numbers rather than uuid strings; only their identity matters. Redis availability is the `reachable` flag.
- Models.TaskQueue.Fetch: a missing handle yields NoSuchJobError. This is how rq behaves (it generates a random unknown id); it is not derived here.
- The evaluator: it writes job metadata, final status, progress, test-case detail and registration score and last submission. The model does not write any of them.
- Leaderboard ranking and any first-accepted-submission check. Neither appears in app/models.py or app/routes.py. Dispatch scores any submission from a registered user up to the contest end, including repeats after an accepted one. The model follows the code.
- Time is an integer parameter. The submission's `timestamp` column default, `utcnow()` at insert, is taken to be the request's `now`.
- Column widths (`String(64)`, `String(16)`) are not enforced.
- Row order of `.first()`: the registration lookup has no `order_by`, and the model reads tables in primary-key (insertion) order. This matters only if one user had two registrations for a contest, which the toggle never creates.
- Concurrency between simultaneous requests. Each handler is one atomic step on the session.
