/** The `getCourse` backend call: request payload, envelope validation and record mapping. */
module CourseApi {
  import opened Wrappers
  import opened JsValue
  import opened Http

  /** The record the store consumes; each field holds whatever value the response carried. */
  datatype CourseData = CourseData(
    subID: Value,
    courseName: Value,
    courseTeacher: Value,
    courseLocation: Value,
    courseDate: Value,
    courseTime: Value,
    courseVideo: Value,
    summary: Value,
    summaryModel: Value,
    summaryToken: Value,
    summaryStatus: Value)

  /** The POST that `getCourse(courseName, date, token)` sends. */
  function CourseRequest(courseName: string, date: string, token: Value): (req: PostRequest)
    ensures req.route == "/getCourse"
    ensures req.body.Keys == {"course_name", "date", "token"}
    ensures req.body["course_name"] == Str(courseName) && req.body["date"] == Str(date) && req.body["token"] == token
  {
    PostRequest("/getCourse", map["course_name" := Str(courseName), "date" := Str(date), "token" := token])
  }

  /** The arguments are carried unchanged: distinct calls send distinct requests. */
  lemma CourseRequestInjective(n1: string, d1: string, t1: Value, n2: string, d2: string, t2: Value)
    requires CourseRequest(n1, d1, t1) == CourseRequest(n2, d2, t2)
    ensures n1 == n2 && d1 == d2 && t1 == t2
  {
    var r1, r2 := CourseRequest(n1, d1, t1), CourseRequest(n2, d2, t2);
    assert r1.body["course_name"] == r2.body["course_name"];
    assert r1.body["date"] == r2.body["date"];
    assert r1.body["token"] == r2.body["token"];
  }

  /**
   * The object literal built from a truthy `data`: the field renaming, with `course_id`
   * dropped. Reading `data.summary.data` throws a TypeError (Rejected) when `data.summary`
   * is nullish.
   */
  function MapCourse(data: Value): Outcome<CourseData>
    requires !Nullish(data)
  {
    var summary := Read(data, "summary");
    if Nullish(summary) then Rejected
    else Resolved(CourseData(
      subID := Read(data, "sub_id"),
      courseName := Read(data, "name"),
      courseTeacher := Read(data, "teacher"),
      courseLocation := Read(data, "location"),
      courseDate := Read(data, "date"),
      courseTime := Read(data, "time"),
      courseVideo := Read(data, "video"),
      summary := Read(summary, "data"),
      summaryModel := Read(summary, "model"),
      summaryToken := Read(summary, "token"),
      summaryStatus := Read(summary, "status")))
  }

  /**
   * `getCourse(courseName, date, token)` against the oracle `post`. Every rejection inside
   * the `try` (of `post`, or a TypeError while mapping) is caught and gives `undefined`, so
   * the result is never a rejection.
   */
  function GetCourse(courseName: string, date: string, token: Value, post: Post): (r: Option<CourseData>)
    ensures var answer := post(CourseRequest(courseName, date, token));
      r.Some? <==>
        && answer.Resolved? && answer.value.Object?
        && "code" in answer.value.props && "data" in answer.value.props
        && answer.value.props["code"] == Number(200.0)
        && Truthy(answer.value.props["data"])
        && !Nullish(Read(answer.value.props["data"], "summary"))
  {
    match post(CourseRequest(courseName, date, token))
    case Rejected => None
    case Resolved(response) =>
      match SuccessData(response)
      case None => None
      case Some(data) =>
        match MapCourse(data)
        case Rejected => None
        case Resolved(d) => Some(d)
  }

  /** The `data.summary` object carrying the summary fields of `d`, over the other keys `rest`. */
  function SummaryObjectOf(d: CourseData, rest: map<string, Value>): Value
  {
    Object(rest["data" := d.summary]["model" := d.summaryModel]["token" := d.summaryToken]["status" := d.summaryStatus])
  }

  /**
   * The `data` object of a success response carrying the record `d`; `dataRest` holds the
   * keys `getCourse` does not read (`course_id` among them) and `summaryRest` those of
   * `data.summary`. The keys that carry `d` override them.
   */
  function CourseDataOf(d: CourseData, dataRest: map<string, Value>, summaryRest: map<string, Value>): Value
  {
    Object(dataRest["sub_id" := d.subID]["name" := d.courseName]["teacher" := d.courseTeacher]
      ["location" := d.courseLocation]["date" := d.courseDate]["time" := d.courseTime]
      ["video" := d.courseVideo]["summary" := SummaryObjectOf(d, summaryRest)])
  }

  lemma SummaryObjectFields(d: CourseData, rest: map<string, Value>)
    ensures var v := SummaryObjectOf(d, rest);
      && !Nullish(v)
      && Read(v, "data") == d.summary && Read(v, "model") == d.summaryModel
      && Read(v, "token") == d.summaryToken && Read(v, "status") == d.summaryStatus
  {
  }

  lemma CourseDataFields(d: CourseData, dataRest: map<string, Value>, summaryRest: map<string, Value>)
    ensures var v := CourseDataOf(d, dataRest, summaryRest);
      && !Nullish(v)
      && Read(v, "sub_id") == d.subID && Read(v, "name") == d.courseName
      && Read(v, "teacher") == d.courseTeacher && Read(v, "location") == d.courseLocation
      && Read(v, "date") == d.courseDate && Read(v, "time") == d.courseTime
      && Read(v, "video") == d.courseVideo && Read(v, "summary") == SummaryObjectOf(d, summaryRest)
  {
  }

  /** The mapping of `data` to a record takes back exactly the record `data` carries. */
  lemma MapCourseRoundTrip(d: CourseData, dataRest: map<string, Value>, summaryRest: map<string, Value>)
    ensures MapCourse(CourseDataOf(d, dataRest, summaryRest)) == Resolved(d)
  {
    CourseDataFields(d, dataRest, summaryRest);
    SummaryObjectFields(d, summaryRest);
  }

  /** A success response carrying `d`; `envelope` holds the other envelope keys (`msg` among them). */
  function CourseResponseOf(d: CourseData, envelope: map<string, Value>, dataRest: map<string, Value>, summaryRest: map<string, Value>): Value
  {
    Object(envelope["code" := Number(200.0)]["data" := CourseDataOf(d, dataRest, summaryRest)])
  }

  /**
   * Round trip of the field renaming: whatever record the backend encodes in a success
   * response, whatever else the response carries, `getCourse` gives back exactly that record.
   */
  lemma GetCourseRoundTrip(courseName: string, date: string, token: Value, post: Post, d: CourseData,
                           envelope: map<string, Value>, dataRest: map<string, Value>, summaryRest: map<string, Value>)
    requires post(CourseRequest(courseName, date, token)) == Resolved(CourseResponseOf(d, envelope, dataRest, summaryRest))
    ensures GetCourse(courseName, date, token, post) == Some(d)
  {
    var response := CourseResponseOf(d, envelope, dataRest, summaryRest);
    assert SuccessData(response) == Some(CourseDataOf(d, dataRest, summaryRest));
    MapCourseRoundTrip(d, dataRest, summaryRest);
  }
}
