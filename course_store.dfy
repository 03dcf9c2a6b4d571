/**
 * The course store: the loaded course record, the loading flag, and the two flows that
 * fill them: loading a course with a cached credential, falling back to re-authentication
 * (twice when the first retry rejects), and requesting a summary.
 */
module Course {
  import opened Wrappers
  import opened JsValue
  import opened Http
  import opened CourseApi
  import opened SummaryApi

  /** One call the store makes to a collaborator. */
  datatype Call =
    | ReadLocalToken
    | Reauthenticate
    | FetchCourse(name: string, date: string, token: Value)
    | RequestSummary(subID: Value, token: Value, task: string)

  /**
   * The store's collaborators as oracles: how each call settles. `getToken` and
   * `getCourse` are told how many calls to them the current flow made before, so
   * their answers may differ from call to call.
   */
  datatype Collaborators = Collaborators(
    localToken: Outcome<Value>,
    reauth: nat -> Outcome<string>,
    course: (nat, string, string, Value) -> Outcome<Option<CourseData>>,
    summarize: (Value, Value, string) -> Outcome<Option<SummaryData>>)

  /** The `getCourse` the API module defines, on top of a `post` oracle for each call. */
  function ApiCourse(post: nat -> Post): (nat, string, string, Value) -> Outcome<Option<CourseData>>
  {
    (n: nat, name: string, date: string, token: Value) => Resolved(GetCourse(name, date, token, post(n)))
  }

  /**
   * With the `getCourse` the API module defines, whatever the backend answers: a load makes
   * at most two `getCourse` calls, and a second `getToken` only when the first answer was
   * `undefined` and the `getToken` of line 32 rejected.
   */
  lemma ApiCourseLoad(c: Collaborators, name: string, date: string, post: nat -> Post)
    requires c.course == ApiCourse(post)
    ensures var run := FetchFlow(c, name, date);
      && |CourseFetches(run.calls)| <= 2
      && (Reauths(run.calls) == 2 <==> FirstFetchAbsent(c, name, date) && c.reauth(0).Rejected?)
  {
    assert forall n: nat, nm, d, t :: c.course(n, nm, d, t).Resolved?;
    NonRejectingFetches(c, name, date);
  }

  // ----- call counting -----

  function Reauths(calls: seq<Call>): nat
  {
    if calls == [] then 0 else (if calls[0] == Reauthenticate then 1 else 0) + Reauths(calls[1..])
  }

  /** The `getCourse` calls, in order. */
  function CourseFetches(calls: seq<Call>): seq<Call>
  {
    if calls == [] then []
    else (if calls[0].FetchCourse? then [calls[0]] else []) + CourseFetches(calls[1..])
  }

  lemma {:induction false} CountsAppend(a: seq<Call>, b: seq<Call>)
    ensures Reauths(a + b) == Reauths(a) + Reauths(b)
    ensures CourseFetches(a + b) == CourseFetches(a) + CourseFetches(b)
  {
    if a != [] {
      assert (a + b)[1..] == a[1..] + b;
      CountsAppend(a[1..], b);
    } else {
      assert a + b == b;
    }
  }

  lemma CountsOfOne(c: Call)
    ensures Reauths([c]) == if c == Reauthenticate then 1 else 0
    ensures CourseFetches([c]) == if c.FetchCourse? then [c] else []
  {
    assert [c][1..] == [];
  }

  // ----- fetchCourseData, on values -----

  /**
   * How one `fetchCourseData` ends: the calls it made, the record it obtained (if any),
   * and whether it completed; it does not when a rejection escapes to the outer `catch`.
   */
  datatype FetchRun = FetchRun(calls: seq<Call>, record: Option<CourseData>, completed: bool)

  /**
   * The inner `catch`: a second re-authentication (the `reauths`-th call) and one more
   * `getCourse` (the `fetches`-th) with its token. A rejection of that `getCourse` is
   * logged and leaves no record; a rejection of `getToken` escapes.
   */
  function Recover(c: Collaborators, name: string, date: string, before: seq<Call>, reauths: nat, fetches: nat): FetchRun
  {
    match c.reauth(reauths)
    case Rejected => FetchRun(before + [Reauthenticate], None, false)
    case Resolved(t) =>
      var record := match c.course(fetches, name, date, Str(t))
        case Resolved(r) => r
        case Rejected => None;
      FetchRun(before + [Reauthenticate, FetchCourse(name, date, Str(t))], record, true)
  }

  /** `fetchCourseData(name, date)`: the nested `try`/`catch` of the store. */
  function FetchFlow(c: Collaborators, name: string, date: string): FetchRun
  {
    match c.localToken
    case Rejected => FetchRun([ReadLocalToken], None, false)
    case Resolved(local) =>
      var first := [ReadLocalToken, FetchCourse(name, date, local)];
      match c.course(0, name, date, local)
      case Rejected => Recover(c, name, date, first, 0, 1)
      case Resolved(Some(d)) => FetchRun(first, Some(d), true)
      case Resolved(None) =>
        match c.reauth(0)
        case Rejected => Recover(c, name, date, first + [Reauthenticate], 1, 1)
        case Resolved(t) =>
          var retry := first + [Reauthenticate, FetchCourse(name, date, Str(t))];
          match c.course(1, name, date, Str(t))
          case Rejected => Recover(c, name, date, retry, 1, 2)
          case Resolved(r) => FetchRun(retry, r, true)
  }

  /** The local token resolved and the first `getCourse` (with it) settled to `undefined`. */
  predicate FirstFetchAbsent(c: Collaborators, name: string, date: string)
  {
    c.localToken.Resolved? && c.course(0, name, date, c.localToken.value) == Resolved(None)
  }

  /** The local token resolved and the first `getCourse` rejected. */
  predicate FirstFetchRejected(c: Collaborators, name: string, date: string)
  {
    c.localToken.Resolved? && c.course(0, name, date, c.localToken.value).Rejected?
  }

  /** After a clean `undefined`, the `getToken` or the retry `getCourse` of lines 32-33 rejected. */
  predicate RetryRejected(c: Collaborators, name: string, date: string)
  {
    FirstFetchAbsent(c, name, date)
    && (c.reauth(0).Rejected? || c.course(1, name, date, Str(c.reauth(0).value)).Rejected?)
  }

  /** The inner `catch` runs. */
  predicate CatchEntered(c: Collaborators, name: string, date: string)
  {
    FirstFetchRejected(c, name, date) || RetryRejected(c, name, date)
  }

  /** The index of the `getToken` call the inner `catch` makes. */
  function CatchReauth(c: Collaborators, name: string, date: string): nat
  {
    if FirstFetchRejected(c, name, date) then 0 else 1
  }

  /**
   * A valid local token: `getCourse` is called once, with the local token, its record is
   * the result, and `getToken` is never called.
   */
  lemma LocalTokenAccepted(c: Collaborators, name: string, date: string)
    requires c.localToken.Resolved?
    requires c.course(0, name, date, c.localToken.value).Resolved?
    requires c.course(0, name, date, c.localToken.value).value.Some?
    ensures var run := FetchFlow(c, name, date);
      && run.calls == [ReadLocalToken, FetchCourse(name, date, c.localToken.value)]
      && Reauthenticate !in run.calls
      && run.record == c.course(0, name, date, c.localToken.value).value
      && run.completed
  {
  }

  /**
   * A clean `undefined` from the first `getCourse`, then a clean re-authentication: one
   * `getToken`, a second `getCourse` with the new token, and whatever the second call
   * settles to is final, `undefined` included.
   */
  lemma RetryAfterAbsent(c: Collaborators, name: string, date: string)
    requires FirstFetchAbsent(c, name, date) && !RetryRejected(c, name, date)
    ensures var renewed := Str(c.reauth(0).value);
      var run := FetchFlow(c, name, date);
      && run.calls == [ReadLocalToken, FetchCourse(name, date, c.localToken.value), Reauthenticate, FetchCourse(name, date, renewed)]
      && run.record == c.course(1, name, date, renewed).value
      && run.completed
  {
  }

  /**
   * A rejected first `getCourse`: one `getToken` and one more `getCourse` with its token;
   * a rejection of that retry is logged and leaves no record. If that `getToken` rejects,
   * the flow is abandoned.
   */
  lemma RetryAfterRejection(c: Collaborators, name: string, date: string)
    requires FirstFetchRejected(c, name, date)
    ensures var run := FetchFlow(c, name, date);
      var first := [ReadLocalToken, FetchCourse(name, date, c.localToken.value)];
      match c.reauth(0)
      case Resolved(t) =>
        && run.calls == first + [Reauthenticate, FetchCourse(name, date, Str(t))]
        && run.record == (if c.course(1, name, date, Str(t)).Resolved? then c.course(1, name, date, Str(t)).value else None)
        && run.completed
      case Rejected =>
        run.calls == first + [Reauthenticate] && run.record.None? && !run.completed
  {
  }

  /**
   * Across all paths `getToken` is called at most twice and `getCourse` at most three times.
   * The second `getToken` happens exactly when lines 32-33 reject into the inner `catch`, and
   * the third `getCourse` when, in addition, both re-authentications resolve.
   */
  lemma FetchCallBounds(c: Collaborators, name: string, date: string)
    ensures var run := FetchFlow(c, name, date);
      Reauths(run.calls) <= 2 && |CourseFetches(run.calls)| <= 3
    ensures var run := FetchFlow(c, name, date);
      Reauths(run.calls) == 2 <==> RetryRejected(c, name, date)
    ensures var run := FetchFlow(c, name, date);
      |CourseFetches(run.calls)| == 3 <==>
        RetryRejected(c, name, date) && c.reauth(0).Resolved? && c.reauth(1).Resolved?
  {
    var run := FetchFlow(c, name, date);
    CountsOfOne(ReadLocalToken);
    CountsOfOne(Reauthenticate);
    match c.localToken
    case Rejected =>
    case Resolved(local) =>
      var fetch0 := FetchCourse(name, date, local);
      CountsOfOne(fetch0);
      var first := [ReadLocalToken, fetch0];
      CountsAppend([ReadLocalToken], [fetch0]);
      assert first == [ReadLocalToken] + [fetch0];
      assert Reauths(first) == 0 && |CourseFetches(first)| == 1;
      match c.course(0, name, date, local)
      case Rejected =>
        RecoverCounts(c, name, date, first, 0, 1);
      case Resolved(Some(d)) =>
      case Resolved(None) =>
        CountsAppend(first, [Reauthenticate]);
        match c.reauth(0)
        case Rejected =>
          RecoverCounts(c, name, date, first + [Reauthenticate], 1, 1);
        case Resolved(t) =>
          var fetch1 := FetchCourse(name, date, Str(t));
          CountsOfOne(fetch1);
          var retry := first + [Reauthenticate, fetch1];
          assert retry == (first + [Reauthenticate]) + [fetch1];
          CountsAppend(first + [Reauthenticate], [fetch1]);
          match c.course(1, name, date, Str(t))
          case Rejected =>
            RecoverCounts(c, name, date, retry, 1, 2);
          case Resolved(r) =>
  }

  /** The inner `catch` adds one `getToken` and, when that resolves, one `getCourse`. */
  lemma RecoverCounts(c: Collaborators, name: string, date: string, before: seq<Call>, reauths: nat, fetches: nat)
    ensures var run := Recover(c, name, date, before, reauths, fetches);
      && Reauths(run.calls) == Reauths(before) + 1
      && |CourseFetches(run.calls)| == |CourseFetches(before)| + (if c.reauth(reauths).Resolved? then 1 else 0)
  {
    CountsOfOne(Reauthenticate);
    CountsAppend(before, [Reauthenticate]);
    if c.reauth(reauths).Resolved? {
      var fetch := FetchCourse(name, date, Str(c.reauth(reauths).value));
      CountsOfOne(fetch);
      assert before + [Reauthenticate, fetch] == (before + [Reauthenticate]) + [fetch];
      CountsAppend(before + [Reauthenticate], [fetch]);
    }
  }

  /**
   * The flow completes (reaches `isLoading = false`) unless `getLocalToken` rejects or the
   * `getToken` of the inner `catch` does; a flow that does not complete obtains no record.
   */
  lemma FetchCompletion(c: Collaborators, name: string, date: string)
    ensures var run := FetchFlow(c, name, date);
      run.completed <==>
        c.localToken.Resolved? && !(CatchEntered(c, name, date) && c.reauth(CatchReauth(c, name, date)).Rejected?)
    ensures var run := FetchFlow(c, name, date);
      !run.completed ==> run.record.None?
  {
  }

  /**
   * With a `getCourse` that never rejects, as the one the API module defines is, only a
   * rejected `getToken` at line 32 leads into the inner `catch`: `getCourse` runs at most
   * twice, and `getToken` twice exactly in that case.
   */
  lemma NonRejectingFetches(c: Collaborators, name: string, date: string)
    requires forall n: nat, nm, d, t :: c.course(n, nm, d, t).Resolved?
    ensures var run := FetchFlow(c, name, date);
      && |CourseFetches(run.calls)| <= 2
      && (Reauths(run.calls) == 2 <==> FirstFetchAbsent(c, name, date) && c.reauth(0).Rejected?)
  {
    FetchCallBounds(c, name, date);
  }

  /**
   * When neither `getCourse` nor `getToken` ever rejects, there is at most one
   * re-authentication, the flow completes as soon as the local token is read, and the
   * record is the first one obtained.
   */
  lemma SingleReauthentication(c: Collaborators, name: string, date: string)
    requires forall n: nat, nm, d, t :: c.course(n, nm, d, t).Resolved?
    requires forall n: nat :: c.reauth(n).Resolved?
    ensures var run := FetchFlow(c, name, date);
      && Reauths(run.calls) <= 1 && |CourseFetches(run.calls)| <= 2
      && (run.completed <==> c.localToken.Resolved?)
      && (c.localToken.Resolved? ==>
           var first := c.course(0, name, date, c.localToken.value).value;
           run.record == if first.Some? then first else c.course(1, name, date, Str(c.reauth(0).value)).value)
  {
    FetchCallBounds(c, name, date);
  }

  // ----- the store -----

  /** The course refs before any record is loaded: `subID` is `undefined`, the others ''. */
  const InitialCourse := CourseData(Undefined, Str(""), Str(""), Str(""), Str(""), Str(""), Str(""), Str(""), Str(""), Str(""), Str(""))

  /** `updateCourseData(d)` on values: every course ref takes `d`'s field except `courseName`. */
  function Committed(fields: CourseData, d: CourseData): CourseData
  {
    d.(courseName := fields.courseName)
  }

  /** The course refs after a flow that obtained `record`. */
  function Settled(fields: CourseData, record: Option<CourseData>): CourseData
  {
    match record
    case Some(d) => Committed(fields, d)
    case None => fields
  }

  /** A commit keeps the shown course name and takes everything else from the record. */
  lemma CommitKeepsName(fields: CourseData, d: CourseData)
    ensures Committed(fields, d).courseName == fields.courseName
    ensures Committed(fields, d).(courseName := d.courseName) == d
    ensures Committed(Committed(fields, d), d) == Committed(fields, d)
  {
  }

  class CourseStore {
    var courseName: Value
    var courseTeacher: Value
    var courseLocation: Value
    var courseDate: Value
    var courseTime: Value
    var courseVideo: Value
    var subID: Value
    var summary: Value
    var summaryModel: Value
    var summaryToken: Value
    var summaryStatus: Value
    var isLoading: bool
    var isVideoLoaded: bool

    /** The eleven course refs as one record. */
    function Fields(): CourseData
      reads this
    {
      CourseData(subID, courseName, courseTeacher, courseLocation, courseDate, courseTime,
        courseVideo, summary, summaryModel, summaryToken, summaryStatus)
    }

    constructor ()
      ensures Fields() == InitialCourse && isLoading && !isVideoLoaded
    {
      courseName, courseTeacher, courseLocation := Str(""), Str(""), Str("");
      courseDate, courseTime, courseVideo := Str(""), Str(""), Str("");
      subID := Undefined;
      summary, summaryModel, summaryToken, summaryStatus := Str(""), Str(""), Str(""), Str("");
      isLoading, isVideoLoaded := true, false;
    }

    /** `updateCourseData(data)` */
    method UpdateCourseData(data: CourseData)
      modifies this
      ensures Fields() == Committed(old(Fields()), data)
      ensures isLoading == old(isLoading) && isVideoLoaded == old(isVideoLoaded)
    {
      subID := data.subID;
      courseTeacher := data.courseTeacher;
      courseLocation := data.courseLocation;
      courseDate := data.courseDate;
      courseTime := data.courseTime;
      courseVideo := data.courseVideo;
      summary := data.summary;
      summaryModel := data.summaryModel;
      summaryToken := data.summaryToken;
      summaryStatus := data.summaryStatus;
    }

    /**
     * `fetchCourseData(name, date)` against the collaborators `c`; returns the calls it made.
     * The course refs change only when a record was obtained, and `isLoading` becomes false
     * only when the flow completes.
     */
    method FetchCourseData(name: string, date: string, c: Collaborators) returns (calls: seq<Call>)
      modifies this
      ensures calls == FetchFlow(c, name, date).calls
      ensures Fields() == Settled(old(Fields()), FetchFlow(c, name, date).record)
      ensures isLoading == if FetchFlow(c, name, date).completed then false else old(isLoading)
      ensures isVideoLoaded == old(isVideoLoaded)
    {
      // outer try
      calls := [ReadLocalToken];
      if c.localToken.Rejected? {
        return;  // outer catch: logged
      }
      var token := c.localToken.value;
      var courseData: Option<CourseData> := None;
      var reauths, fetches := 0, 0;
      var threw := false;
      // inner try
      calls := calls + [FetchCourse(name, date, token)];
      var answer := c.course(fetches, name, date, token);
      fetches := fetches + 1;
      if answer.Rejected? {
        threw := true;
      } else {
        courseData := answer.value;
        if courseData.None? {
          calls := calls + [Reauthenticate];
          var renewed := c.reauth(reauths);
          reauths := reauths + 1;
          if renewed.Rejected? {
            threw := true;
          } else {
            token := Str(renewed.value);
            calls := calls + [FetchCourse(name, date, token)];
            answer := c.course(fetches, name, date, token);
            fetches := fetches + 1;
            if answer.Rejected? {
              threw := true;
            } else {
              courseData := answer.value;
            }
          }
        }
      }
      if threw {
        // inner catch
        calls := calls + [Reauthenticate];
        var renewed := c.reauth(reauths);
        if renewed.Rejected? {
          return;  // escapes to the outer catch: logged
        }
        token := Str(renewed.value);
        calls := calls + [FetchCourse(name, date, token)];
        answer := c.course(fetches, name, date, token);
        if answer.Resolved? {
          courseData := answer.value;
        }  // otherwise logged
      }
      if courseData.Some? {
        UpdateCourseData(courseData.value);
      }
      isLoading := false;
    }

    /**
     * `generateCourseSummary(task)`: reads the local token afresh (no re-authentication),
     * requests a summary for the current `subID`, then shows 'generating' or, when a result
     * came back, its status. A rejection of either call leaves the status as it was.
     */
    method GenerateCourseSummary(task: string, c: Collaborators) returns (calls: seq<Call>)
      modifies this`summaryStatus
      ensures c.localToken.Rejected? ==> calls == [ReadLocalToken] && summaryStatus == old(summaryStatus)
      ensures c.localToken.Resolved? ==>
        var answer := c.summarize(subID, c.localToken.value, task);
        && calls == [ReadLocalToken, RequestSummary(subID, c.localToken.value, task)]
        && summaryStatus == match answer
             case Rejected => old(summaryStatus)
             case Resolved(None) => Str("generating")
             case Resolved(Some(result)) => result.summaryStatus
      ensures Reauthenticate !in calls
    {
      calls := [ReadLocalToken];
      if c.localToken.Rejected? {
        return;  // logged
      }
      var token := c.localToken.value;
      calls := calls + [RequestSummary(subID, token, task)];
      var answer := c.summarize(subID, token, task);
      if answer.Rejected? {
        return;  // logged
      }
      summaryStatus := Str("generating");
      if answer.value.Some? {
        summaryStatus := answer.value.value.summaryStatus;
      }
    }
  }
}
