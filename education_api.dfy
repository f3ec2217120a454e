/**
 * The education endpoints: the course list and course detail (cached for anonymous
 * visitors only, with per-user completion and progress for signed-in users), the
 * course writes (which invalidate only the course's detail key), lesson detail, the
 * mark-complete endpoints and the progress report. Handlers read the course tables of
 * a `Session` and the shared `KeyValueStore`; each is proved equal to a function of
 * the tables and the store state.
 */
module EducationApi {
  import opened Wrappers
  import opened Text
  import opened JsonValue
  import opened Store
  import opened Database
  import opened Sequences
  import opened EducationCrud
  import Auth

  const ListPrefix: string := "education:courses:list:"
  const DetailPrefix: string := "education:courses:detail:"
  const CacheSeconds: int := 3600

  // ---- the optional signed-in user ----

  /** `get_current_user_optional`: the user named by a valid access token's `sub`, and
      None for missing credentials, a rejected token, a missing or non-numeric `sub`
      (the swallowed `int()` error), or an unknown user. `claims` is what
      `verify_token(token, "access")` yields. */
  function CurrentUserOptional(hasCredentials: bool, claims: Auth.Claims, users: seq<UserRow>): (r: Option<int>)
    ensures r.Some? <==> hasCredentials && claims.Accepted? && claims.sub.Some? &&
                         ParseInt(claims.sub.value).Some? && 1 <= ParseInt(claims.sub.value).value <= |users|
    ensures r.Some? ==> r.value == ParseInt(claims.sub.value).value
  {
    if !hasCredentials || claims.Rejected? || claims.sub.None? then None
    else match ParseInt(claims.sub.value)
      case None => None
      case Some(id) => if 1 <= id <= |users| then Some(id) else None
  }

  /** The subject that login puts in its tokens identifies the same user here. */
  lemma LoginSubjectIdentifiesUser(users: seq<UserRow>, id: int)
    requires 1 <= id <= |users|
    ensures CurrentUserOptional(true, Auth.Accepted(Some(IntToString(id))), users) == Some(id)
  {
    IntToStringRoundTrip(id);
  }

  // ---- views ----

  /** A lesson as the endpoints show it, with the viewer's completion. */
  datatype LessonView = LessonView(lesson: LessonRow, completed: bool)

  /** A course with the viewer's progress and its lessons. */
  datatype CourseView = CourseView(course: CourseRow, progress: int, lessons: seq<LessonView>)

  /** `progress and progress.completed` for the user's first record of the lesson. */
  predicate CompletedRecord(records: seq<LessonProgressRow>, userId: int, lessonId: int) {
    var k := IndexWhere(records, RecordOf(userId, lessonId));
    k.Some? && records[k.value].completed
  }

  /** The lesson loop's dictionaries: completed only for a signed-in viewer whose record
      for the lesson is completed. */
  function LessonViews(records: seq<LessonProgressRow>, viewer: Option<int>, lessons: seq<LessonRow>): (r: seq<LessonView>)
    ensures |r| == |lessons|
    ensures forall k | 0 <= k < |r| :: r[k].lesson == lessons[k]
    ensures forall k | 0 <= k < |r| :: r[k].completed <==> viewer.Some? && CompletedRecord(records, viewer.value, lessons[k].id)
  {
    if |lessons| == 0 then []
    else
      var n := |lessons| - 1;
      var last := lessons[n];
      LessonViews(records, viewer, lessons[..n]) + [LessonView(last, viewer.Some? && CompletedRecord(records, viewer.value, last.id))]
  }

  /** The loop's `completed_count`. */
  function CountCompleted(views: seq<LessonView>): (r: nat)
    ensures r <= |views|
    ensures r == 0 <== forall k | 0 <= k < |views| :: !views[k].completed
  {
    if |views| == 0 then 0
    else CountCompleted(views[..|views| - 1]) + (if views[|views| - 1].completed then 1 else 0)
  }

  /** The course's progress for the viewer: 0 for anonymous viewers, otherwise the stored
      progress if there is a record, else the share of completed lessons (0 without lessons). */
  function ViewProgress(t: Courses, viewer: Option<int>, courseId: int, completed: nat, total: nat): (r: int)
    ensures viewer.None? ==> r == 0
    ensures ProgressBounded(t.courseProgress) && completed <= total ==> 0 <= r <= 100
  {
    if viewer.None? then 0
    else match IndexWhere(t.courseProgress, ProgressOf(viewer.value, courseId))
      case Some(k) => t.courseProgress[k].progress
      case None => ProgressPercent(completed, total)
  }

  /** The course dictionary of the list and detail endpoints. */
  function CourseViewSpec(t: Courses, viewer: Option<int>, course: CourseRow): CourseView {
    var lessons := LessonViews(t.lessonProgress, viewer, LessonsOf(t.lessons, course.id));
    CourseView(course, ViewProgress(t, viewer, course.id, CountCompleted(lessons), |lessons|), lessons)
  }

  /** The course dictionary describes the course, lists exactly its lessons in `order`,
      shows nothing completed and progress 0 to anonymous viewers, and its progress is a
      percentage. */
  lemma CourseViewShape(t: Courses, viewer: Option<int>, course: CourseRow)
    ensures var r := CourseViewSpec(t, viewer, course);
      && r.course == course
      && |r.lessons| == |LessonsOf(t.lessons, course.id)|
      && (forall k | 0 <= k < |r.lessons| :: r.lessons[k].lesson == LessonsOf(t.lessons, course.id)[k])
      && (forall i, j | 0 <= i < j < |r.lessons| :: r.lessons[i].lesson.fields.order <= r.lessons[j].lesson.fields.order)
      && (viewer.None? ==> r.progress == 0 && forall k | 0 <= k < |r.lessons| :: !r.lessons[k].completed)
      && (ProgressBounded(t.courseProgress) ==> 0 <= r.progress <= 100)
  {
  }

  /** The list loop's result. */
  function CourseViews(t: Courses, viewer: Option<int>, courses: seq<CourseRow>): (r: seq<CourseView>)
    ensures |r| == |courses|
    ensures forall k | 0 <= k < |r| :: r[k] == CourseViewSpec(t, viewer, courses[k])
  {
    Map(c => CourseViewSpec(t, viewer, c), courses)
  }

  // ---- JSON bodies (timestamps are not modelled) ----

  function EncodeLesson(v: LessonView): Json {
    var f := v.lesson.fields;
    JObj(map[
      "id" := JInt(v.lesson.id), "course_id" := JInt(v.lesson.courseId), "title" := JStr(f.title),
      "duration" := JStr(f.duration), "type" := JStr(f.kind),
      "content" := (if f.content.Some? then JStr(f.content.value) else JNull),
      "order" := JInt(f.order), "completed" := JBool(v.completed)])
  }

  function EncodeCourse(v: CourseView): Json {
    var f := v.course.fields;
    JObj(map[
      "id" := JInt(v.course.id), "title" := JStr(f.title), "description" := JStr(f.description),
      "level" := JStr(f.level), "duration" := JStr(f.duration), "modules" := JInt(f.modules),
      "category" := JStr(f.category), "instructor" := JStr(f.instructor), "icon" := JStr(f.icon),
      "progress" := JInt(v.progress),
      "lessons" := JArr(seq(|v.lessons|, k requires 0 <= k < |v.lessons| => EncodeLesson(v.lessons[k])))])
  }

  function EncodeList(vs: seq<CourseView>): (r: Json)
    ensures r.JArr? && |r.items| == |vs|
  {
    JArr(seq(|vs|, k requires 0 <= k < |vs| => EncodeCourse(vs[k])))
  }

  /** An HTTP reply: the status and the JSON body (`{"detail": ...}` for errors). */
  datatype Reply = Reply(status: int, body: Json)

  function Detail(message: string): Json {
    JObj(map["detail" := JStr(message)])
  }

  // ---- cache keys ----

  function DetailKey(courseId: int): (r: string)
    ensures DetailPrefix <= r && ParseInt(r[|DetailPrefix|..]) == Some(courseId)
  {
    IntToStringRoundTrip(courseId);
    DetailPrefix + IntToString(courseId)
  }

  /** `(x or default).strip().lower()` */
  function KeyPart(x: Option<string>, default: string): (r: string)
    ensures IsLowerCase(r)
    ensures !Given(x) ==> r == Lower(Strip(default))
  {
    LowerIsLowerCase(Strip(if Given(x) then x.value else default));
    Lower(Strip(if Given(x) then x.value else default))
  }

  /** A filter argument as the query applies it: lower-cased when given, empty when absent. */
  function FilterTerm(x: Option<string>): (r: string)
    ensures |r| > 0 <==> Given(x)
  {
    if Given(x) then Lower(x.value) else ""
  }

  /** The list-cache key. As written, it stands for the category "all" when there is none
      and strips the arguments; corrected, it carries exactly what the query uses: the
      window, and the lower-cased filter terms, the first one length-prefixed. */
  function ListCacheKey(rev: Revision, category: Option<string>, search: Option<string>, skip: int, limit: int): (r: string)
    ensures ListPrefix <= r
  {
    ListPrefix + ListKeyTail(rev, category, search, skip, limit)
  }

  function ListKeyTail(rev: Revision, category: Option<string>, search: Option<string>, skip: int, limit: int): string {
    match rev
    case AsWritten =>
      KeyPart(category, "all") + ":" + KeyPart(search, "") + ":" + IntToString(skip) + ":" + IntToString(limit)
    case Corrected =>
      var c := FilterTerm(category);
      IntToString(skip) + ":" + (IntToString(limit) + ":" + (NatToString(|c|) + ":" + (c + FilterTerm(search))))
  }

  /** Detail and list keys never collide, so writes that delete a detail key leave every
      cached list in place. */
  lemma ListAndDetailKeysDiffer(rev: Revision, category: Option<string>, search: Option<string>, skip: int, limit: int, courseId: int)
    ensures ListCacheKey(rev, category, search, skip, limit) != DetailKey(courseId)
  {
    assert ListPrefix[18] == 'l' && DetailPrefix[18] == 'd';
    PrefixesDiffer(ListPrefix, ListKeyTail(rev, category, search, skip, limit), DetailPrefix, IntToString(courseId), 18);
  }

  /** Two keys whose prefixes differ at a common position differ, whatever follows. */
  lemma PrefixesDiffer(p1: string, t1: string, p2: string, t2: string, i: nat)
    requires i < |p1| && i < |p2| && p1[i] != p2[i]
    ensures p1 + t1 != p2 + t2
  {
    assert (p1 + t1)[i] == p1[i];
    assert (p2 + t2)[i] == p2[i];
  }

  /** Deleting one key leaves what every other key reads. */
  lemma DeleteLeavesOtherKeys(s: StoreState, deleted: string, key: string)
    requires deleted != key
    ensures GetSpec(DeleteSpec(s, deleted).0, key) == GetSpec(s, key)
  {
    assert Slot(DeleteSpec(s, deleted).0, key) == Slot(s, key);
  }

  // ---- list ----

  /** Whether `json.dumps` accepts a list body. Every course and lesson dictionary holds
      its `created_at` and `updated_at` as `datetime` values, which `json.dumps` (called
      without `default=`) refuses with a `TypeError`; `RedisCache.set` swallows it. So only
      a list with no course reaches the store. */
  predicate Dumps(views: seq<CourseView>) {
    |views| == 0
  }

  /** `list_courses`: the new store and the body. Only anonymous requests read or write
      the cache, and the only body ever written is the empty list. */
  function ListSpec(rev: Revision, t: Courses, s: StoreState, viewer: Option<int>,
                    category: Option<string>, search: Option<string>, skip: nat, limit: nat): (r: (StoreState, Json))
    ensures viewer.Some? ==> r.0 == s
    ensures r.1 != JNull
    ensures r.0 != s ==> viewer.None? && GetCourses(t.courses, category, search, skip, limit) == [] && r.1 == JArr([])
    ensures r.0.data - {ListCacheKey(rev, category, search, skip, limit)} == s.data - {ListCacheKey(rev, category, search, skip, limit)}
    ensures viewer.None? && GetSpec(s, ListCacheKey(rev, category, search, skip, limit)) != JNull ==>
      r == (s, GetSpec(s, ListCacheKey(rev, category, search, skip, limit)))
    ensures viewer.Some? || GetSpec(s, ListCacheKey(rev, category, search, skip, limit)) == JNull ==>
      r.1 == EncodeList(CourseViews(t, viewer, GetCourses(t.courses, category, search, skip, limit)))
  {
    var views := CourseViews(t, viewer, GetCourses(t.courses, category, search, skip, limit));
    var computed := EncodeList(views);
    if viewer.Some? then (s, computed)
    else
      var key := ListCacheKey(rev, category, search, skip, limit);
      var cached := GetSpec(s, key);
      if cached != JNull then (s, cached)
      else if Dumps(views) then (SetSpec(s, key, computed, CacheSeconds).0, computed)
      else (s, computed)
  }

  /** A signed-in viewer always gets the list computed from the tables. */
  lemma SignedInListIsFresh(rev: Revision, t: Courses, s: StoreState, userId: int,
                            category: Option<string>, search: Option<string>, skip: nat, limit: nat)
    ensures ListSpec(rev, t, s, Some(userId), category, search, skip, limit).1
         == EncodeList(CourseViews(t, Some(userId), GetCourses(t.courses, category, search, skip, limit)))
  {
  }

  /** An anonymous list repeated on a reachable store before the entry expires is served
      from the cache, unchanged and without writing, when the first request found an entry
      or its query found no course (the empty list is the one body that encodes). */
  lemma AnonymousListRepeatsFromCache(rev: Revision, t: Courses, t2: Courses, s: StoreState,
                                      category: Option<string>, search: Option<string>, skip: nat, limit: nat)
    requires s.up
    ensures var (s1, first) := ListSpec(rev, t, s, None, category, search, skip, limit);
      GetSpec(s, ListCacheKey(rev, category, search, skip, limit)) != JNull ||
      GetCourses(t.courses, category, search, skip, limit) == [] ==>
        ListSpec(rev, t2, s1, None, category, search, skip, limit) == (s1, first)
  {
    var key := ListCacheKey(rev, category, search, skip, limit);
    var (s1, first) := ListSpec(rev, t, s, None, category, search, skip, limit);
    if GetSpec(s, key) == JNull && GetCourses(t.courses, category, search, skip, limit) == [] {
      assert Slot(s1, key).Some?;
    }
  }

  /** On a cold key, an anonymous list holding a course is not cached: the store is left
      as it was and the next request is computed from the tables as they then are, so a
      course update shows at once. */
  lemma AnonymousListWithCoursesIsRecomputed(rev: Revision, t: Courses, t2: Courses, s: StoreState,
                                             category: Option<string>, search: Option<string>, skip: nat, limit: nat)
    requires GetSpec(s, ListCacheKey(rev, category, search, skip, limit)) == JNull
    requires GetCourses(t.courses, category, search, skip, limit) != []
    ensures var (s1, first) := ListSpec(rev, t, s, None, category, search, skip, limit);
      s1 == s &&
      ListSpec(rev, t2, s1, None, category, search, skip, limit).1
        == EncodeList(CourseViews(t2, None, GetCourses(t2.courses, category, search, skip, limit)))
  {
    var views := CourseViews(t, None, GetCourses(t.courses, category, search, skip, limit));
    assert !Dumps(views);
  }

  /** The as-written key: no category and the category "all" share a key, yet filter
      differently: for a table holding one "Stocks" course, the first lists it and the
      second would list nothing. */
  lemma ListKeyConflatesAll(course: CourseRow)
    requires course.fields.category == "Stocks"
    ensures ListCacheKey(AsWritten, None, None, 0, 100) == ListCacheKey(AsWritten, Some("all"), None, 0, 100)
    ensures GetCourses([course], None, None, 0, 100) == [course]
    ensures GetCourses([course], Some("all"), None, 0, 100) == []
  {
    var low := Lower("Stocks");
    forall k | 0 <= k < |low|
      ensures low[k] != 'a'
    {
      assert "Stocks"[k] in "Stocks";
    }
    FirstCharAbsent(low, Lower("all"));
    assert !Matches(course.fields, Some("all"), None);
  }

  lemma FirstCharAbsent(s: string, sub: string)
    requires |sub| > 0 && forall k | 0 <= k < |s| :: s[k] != sub[0]
    ensures !Contains(s, sub)
  {
    forall i | 0 <= i <= |s|
      ensures !IsPrefix(sub, s[i..])
    {
      if i < |s| {
        assert s[i..][0] == s[i];
      }
    }
  }

  /** After an anonymous list on a reachable store, its key holds the body exactly when
      the key already held it or the query found no course. */
  lemma AnonymousListFillsCache(rev: Revision, t: Courses, s: StoreState,
                                category: Option<string>, search: Option<string>, skip: nat, limit: nat)
    requires s.up
    ensures var (s1, body) := ListSpec(rev, t, s, None, category, search, skip, limit);
      var key := ListCacheKey(rev, category, search, skip, limit);
      GetSpec(s1, key) == body <==> GetSpec(s, key) != JNull || GetCourses(t.courses, category, search, skip, limit) == []
  {
    var key := ListCacheKey(rev, category, search, skip, limit);
    var (s1, body) := ListSpec(rev, t, s, None, category, search, skip, limit);
    if GetSpec(s, key) == JNull && GetCourses(t.courses, category, search, skip, limit) == [] {
      assert Slot(s1, key).Some?;
    }
  }

  /** Finding, as written: for a table holding one "Stocks" course, an anonymous request
      for the category "all" finds nothing and caches the empty list under the key that a
      request without a category shares; that request is then served the empty list where
      its own query lists the course. */
  lemma UnfilteredListServedAllCategory(t: Courses, s: StoreState, course: CourseRow)
    requires s.up && t.courses == [course] && course.fields.category == "Stocks"
    requires GetSpec(s, ListCacheKey(AsWritten, Some("all"), None, 0, 100)) == JNull
    ensures var (s1, first) := ListSpec(AsWritten, t, s, None, Some("all"), None, 0, 100);
      first == JArr([]) &&
      ListSpec(AsWritten, t, s1, None, None, None, 0, 100).1 == JArr([]) &&
      EncodeList(CourseViews(t, None, GetCourses(t.courses, None, None, 0, 100))) != JArr([])
  {
    ListKeyConflatesAll(course);
    AnonymousListFillsCache(AsWritten, t, s, Some("all"), None, 0, 100);
    assert CourseViews(t, None, []) == [];
    assert EncodeList([]) == JArr([]);
    assert |EncodeList(CourseViews(t, None, [course])).items| == 1;
  }

  lemma NoColonInNat(n: nat)
    ensures ':' !in NatToString(n)
  {
    var s := NatToString(n);
    assert forall k | 0 <= k < |s| :: IsDigit(s[k]);
  }

  /** Corrected: two requests that share a key run the same query, so a cached list is
      only ever served to requests whose own list it is. */
  lemma CorrectedListKeyDeterminesList(courses: seq<CourseRow>,
                                       c1: Option<string>, q1: Option<string>, k1: nat, l1: nat,
                                       c2: Option<string>, q2: Option<string>, k2: nat, l2: nat)
    requires ListCacheKey(Corrected, c1, q1, k1, l1) == ListCacheKey(Corrected, c2, q2, k2, l2)
    ensures GetCourses(courses, c1, q1, k1, l1) == GetCourses(courses, c2, q2, k2, l2)
  {
    var a1, a2 := FilterTerm(c1), FilterTerm(c2);
    var b1, b2 := FilterTerm(q1), FilterTerm(q2);
    var tail1 := NatToString(|a1|) + ":" + (a1 + b1);
    var tail2 := NatToString(|a2|) + ":" + (a2 + b2);
    var mid1 := IntToString(l1) + ":" + tail1;
    var mid2 := IntToString(l2) + ":" + tail2;
    var rest1 := IntToString(k1) + ":" + mid1;
    var rest2 := IntToString(k2) + ":" + mid2;
    assert rest1 == ListCacheKey(Corrected, c1, q1, k1, l1)[|ListPrefix|..];
    assert rest2 == ListCacheKey(Corrected, c2, q2, k2, l2)[|ListPrefix|..];
    IntToStringNoColon(k1);
    IntToStringNoColon(k2);
    SeparatedUnique(IntToString(k1), mid1, IntToString(k2), mid2, ':');
    IntToStringInjective(k1, k2);
    IntToStringNoColon(l1);
    IntToStringNoColon(l2);
    SeparatedUnique(IntToString(l1), tail1, IntToString(l2), tail2, ':');
    IntToStringInjective(l1, l2);
    NoColonInNat(|a1|);
    NoColonInNat(|a2|);
    SeparatedUnique(NatToString(|a1|), a1 + b1, NatToString(|a2|), a2 + b2, ':');
    NatToStringInjective(|a1|, |a2|);
    assert a1 == (a1 + b1)[..|a1|] && a2 == (a2 + b2)[..|a2|];
    assert b1 == (a1 + b1)[|a1|..] && b2 == (a2 + b2)[|a2|..];
    forall i | 0 <= i < |courses|
      ensures Matching(c1, q1)(courses[i]) == Matching(c2, q2)(courses[i])
    {
    }
    FilterAgree(courses, Matching(c1, q1), Matching(c2, q2));
  }

  // ---- detail ----

  /** `get_course_detail`: anonymous requests are answered from the detail key when it
      holds a document; an unknown course is 404. The write after a miss never takes
      effect: the body is one course dictionary, which `Dumps` refuses, so the store is
      only read. */
  function DetailSpec(t: Courses, s: StoreState, viewer: Option<int>, courseId: int): (r: Reply)
    ensures r.status == 200 || r.status == 404
    ensures r.status == 404 ==> GetCourse(t.courses, courseId).None?
    ensures viewer.None? && GetSpec(s, DetailKey(courseId)) != JNull ==> r == Reply(200, GetSpec(s, DetailKey(courseId)))
  {
    var key := DetailKey(courseId);
    if viewer.None? && GetSpec(s, key) != JNull then Reply(200, GetSpec(s, key))
    else match GetCourse(t.courses, courseId)
      case None => Reply(404, Detail("Course not found"))
      case Some(course) => Reply(200, EncodeCourse(CourseViewSpec(t, viewer, course)))
  }

  /** A detail the store does not hold is computed from the tables as they are, for every
      request: nothing the endpoint does puts it in the store. */
  lemma UncachedDetailIsRecomputed(t: Courses, s: StoreState, viewer: Option<int>, courseId: int)
    requires viewer.Some? || GetSpec(s, DetailKey(courseId)) == JNull
    ensures GetCourse(t.courses, courseId).None? ==> DetailSpec(t, s, viewer, courseId).status == 404
    ensures GetCourse(t.courses, courseId).Some? ==>
      DetailSpec(t, s, viewer, courseId) == Reply(200, EncodeCourse(CourseViewSpec(t, viewer, GetCourse(t.courses, courseId).value)))
  {
  }

  // ---- course writes ----

  /** `create_new_course`: the course is created, its detail key deleted, and the new
      course returned with 201 (progress 0, no lesson completed). */
  function CreateEndpointSpec(t: Courses, s: StoreState, fields: CourseFields, lessons: seq<LessonFields>)
    : (r: (Courses, StoreState, Reply))
    ensures r.0 == CreateCourseSpec(t, fields, lessons).0
    ensures r.1 == DeleteSpec(s, DetailKey(t.nextCourseId)).0
    ensures r.2.status == 201
  {
    var (t1, course) := CreateCourseSpec(t, fields, lessons);
    (t1, DeleteSpec(s, DetailKey(course.id)).0, Reply(201, EncodeCourse(CourseViewSpec(t1, None, course))))
  }

  /** `update_course_info`: 404 for an unknown course, with nothing changed; otherwise
      the course is updated and its detail key deleted. */
  function UpdateEndpointSpec(t: Courses, s: StoreState, courseId: int, u: CourseUpdate): (r: (Courses, StoreState, Reply))
    ensures r.2.status == 404 <==> GetCourse(t.courses, courseId).None?
    ensures r.2.status == 404 ==> r.0 == t && r.1 == s
    ensures r.2.status != 404 ==> r.2.status == 200 && r.0 == UpdateCourseSpec(t, courseId, u).0 &&
                                  r.1 == DeleteSpec(s, DetailKey(courseId)).0
  {
    var (t1, row) := UpdateCourseSpec(t, courseId, u);
    match row
    case None => (t, s, Reply(404, Detail("Course not found")))
    case Some(course) =>
      (t1, DeleteSpec(s, DetailKey(courseId)).0, Reply(200, EncodeCourse(CourseViewSpec(t1, None, course))))
  }

  /** `delete_course_endpoint`: 404 for an unknown course; otherwise 204 after the
      cascading delete and the deletion of the detail key. */
  function DeleteEndpointSpec(t: Courses, s: StoreState, courseId: int): (r: (Courses, StoreState, Reply))
    ensures r.2.status == 404 <==> GetCourse(t.courses, courseId).None?
    ensures r.2.status == 404 ==> r.0 == t && r.1 == s
    ensures r.2.status != 404 ==> r.2 == Reply(204, JNull) && r.0 == DeleteCourseSpec(t, courseId).0 &&
                                  r.1 == DeleteSpec(s, DetailKey(courseId)).0
  {
    var (t1, ok) := DeleteCourseSpec(t, courseId);
    if !ok then (t, s, Reply(404, Detail("Course not found")))
    else (t1, DeleteSpec(s, DetailKey(courseId)).0, Reply(204, JNull))
  }

  /** After an update on a reachable store, an anonymous detail shows the updated course,
      not a copy cached before the update. */
  lemma UpdateRefreshesDetail(t: Courses, s: StoreState, courseId: int, u: CourseUpdate)
    requires s.up && GetCourse(t.courses, courseId).Some?
    ensures var (t1, s1, reply) := UpdateEndpointSpec(t, s, courseId, u);
      DetailSpec(t1, s1, None, courseId) == Reply(200, EncodeCourse(CourseViewSpec(t1, None, UpdateCourseSpec(t, courseId, u).1.value)))
  {
    UpdateThenGet(t, courseId, u);
  }

  /** After a delete on a reachable store, the detail of the course is 404 for everyone. */
  lemma DeleteHidesDetail(t: Courses, s: StoreState, courseId: int, viewer: Option<int>)
    requires s.up && GetCourse(t.courses, courseId).Some?
    ensures var (t1, s1, reply) := DeleteEndpointSpec(t, s, courseId);
      DetailSpec(t1, s1, viewer, courseId).status == 404
  {
  }

  /** Course writes leave every cached list as it was: lists refresh only when they expire. */
  lemma WritesLeaveListCache(t: Courses, s: StoreState, courseId: int, u: CourseUpdate,
                             rev: Revision, category: Option<string>, search: Option<string>, skip: int, limit: int)
    ensures var key := ListCacheKey(rev, category, search, skip, limit);
      GetSpec(UpdateEndpointSpec(t, s, courseId, u).1, key) == GetSpec(s, key) &&
      GetSpec(DeleteEndpointSpec(t, s, courseId).1, key) == GetSpec(s, key)
  {
    var key := ListCacheKey(rev, category, search, skip, limit);
    ListAndDetailKeysDiffer(rev, category, search, skip, limit, courseId);
    DeleteLeavesOtherKeys(s, DetailKey(courseId), key);
    var s1 := UpdateEndpointSpec(t, s, courseId, u).1;
    var s2 := DeleteEndpointSpec(t, s, courseId).1;
    assert s1 == s || s1 == DeleteSpec(s, DetailKey(courseId)).0;
    assert s2 == s || s2 == DeleteSpec(s, DetailKey(courseId)).0;
  }

  // ---- lessons and progress ----

  /** `get_lesson_detail`: 404 for an unknown lesson; completion only for a signed-in viewer. */
  function LessonDetailSpec(t: Courses, viewer: Option<int>, lessonId: int): (r: Reply)
    ensures r.status == 404 <==> GetLesson(t.lessons, lessonId).None?
    ensures r.status != 404 ==> (r.status == 200 &&
      r.body == EncodeLesson(LessonView(GetLesson(t.lessons, lessonId).value,
                                        viewer.Some? && CompletedRecord(t.lessonProgress, viewer.value, lessonId))))
  {
    match GetLesson(t.lessons, lessonId)
    case None => Reply(404, Detail("Lesson not found"))
    case Some(lesson) => Reply(200, EncodeLesson(LessonView(lesson, viewer.Some? && CompletedRecord(t.lessonProgress, viewer.value, lessonId))))
  }

  /** `mark_lesson_completed` / `mark_lesson_incomplete`: 404 for an unknown lesson,
      otherwise the record is upserted and the course progress recomputed. */
  function MarkEndpointSpec(t: Courses, userId: int, lessonId: int, completed: bool, now: int): (r: (Courses, Reply))
    ensures r.1.status == 404 <==> GetLesson(t.lessons, lessonId).None?
    ensures r.1.status == 404 ==> r.0 == t
    ensures r.1.status != 404 ==> r.1.status == 200 && r.0 == MarkLessonSpec(t, userId, lessonId, completed, now).0
  {
    if GetLesson(t.lessons, lessonId).None? then (t, Reply(404, Detail("Lesson not found")))
    else
      var message := if completed then "Lesson marked as complete" else "Lesson marked as incomplete";
      (MarkLessonSpec(t, userId, lessonId, completed, now).0,
       Reply(200, JObj(map["message" := JStr(message), "lesson_id" := JInt(lessonId)])))
  }

  /** After marking a lesson, the lesson detail shows the new state to that user. */
  lemma MarkThenLessonDetail(t: Courses, userId: int, lessonId: int, completed: bool, now: int)
    requires UniqueRecords(t.lessonProgress) && GetLesson(t.lessons, lessonId).Some?
    ensures var t1 := MarkEndpointSpec(t, userId, lessonId, completed, now).0;
      LessonDetailSpec(t1, Some(userId), lessonId).body
        == EncodeLesson(LessonView(GetLesson(t.lessons, lessonId).value, completed))
  {
    MarkKeepsOneRecord(t, userId, lessonId, completed, now);
  }

  /** The figures of `get_course_progress`. */
  datatype ProgressReport = ProgressReport(courseId: int, progress: int, completedLessons: nat, totalLessons: nat)

  function CompletedBy(records: seq<LessonProgressRow>, userId: int): LessonRow -> bool {
    (l: LessonRow) => CompletedRecord(records, userId, l.id)
  }

  /** `get_course_progress`: None (404) for an unknown course; otherwise the number of the
      course's lessons with a completed record, the number of its lessons, and the stored
      progress or 0. */
  function CourseProgressSpec(t: Courses, userId: int, courseId: int): (r: Option<ProgressReport>)
    ensures r.None? <==> GetCourse(t.courses, courseId).None?
    ensures r.Some? ==> r.value.courseId == courseId && r.value.completedLessons <= r.value.totalLessons
    ensures r.Some? ==> r.value.totalLessons == |Filter(t.lessons, InCourse(courseId))|
    ensures r.Some? && ProgressBounded(t.courseProgress) ==> 0 <= r.value.progress <= 100
    ensures r.Some? && IndexWhere(t.courseProgress, ProgressOf(userId, courseId)).None? ==> r.value.progress == 0
  {
    if GetCourse(t.courses, courseId).None? then None
    else
      var lessons := LessonsOf(t.lessons, courseId);
      var progress := match IndexWhere(t.courseProgress, ProgressOf(userId, courseId))
        case Some(k) => t.courseProgress[k].progress
        case None => 0;
      Some(ProgressReport(courseId, progress, |Filter(lessons, CompletedBy(t.lessonProgress, userId))|, |lessons|))
  }

  function ProgressReply(r: Option<ProgressReport>): Reply {
    match r
    case None => Reply(404, Detail("Course not found"))
    case Some(p) => Reply(200, JObj(map[
      "course_id" := JInt(p.courseId), "progress" := JInt(p.progress),
      "completed_lessons" := JInt(p.completedLessons), "total_lessons" := JInt(p.totalLessons)]))
  }

  /** Right after a lesson is marked, the reported progress is the recomputed share of
      completed records among the course's lessons. */
  lemma MarkThenReportedProgress(t: Courses, userId: int, lessonId: int, completed: bool, now: int)
    requires WellFormed(t) && GetLesson(t.lessons, lessonId).Some?
    ensures var lesson := GetLesson(t.lessons, lessonId).value;
      var t1 := MarkLessonSpec(t, userId, lessonId, completed, now).0;
      var t0 := UpsertRecord(t, userId, lessonId, completed, now).0;
      CourseProgressSpec(t1, userId, lesson.courseId).Some? &&
      CourseProgressSpec(t1, userId, lesson.courseId).value.progress
        == ProgressPercent(CompletedCount(t0, userId, lesson.courseId), TotalCount(t0, lesson.courseId))
  {
    var lesson := GetLesson(t.lessons, lessonId).value;
    assert lessonId in AllLessonIds(t.lessons);
    assert lesson.courseId in CourseIds(t.courses);
    var t0 := UpsertRecord(t, userId, lessonId, completed, now).0;
    var (t1, row) := UpdateProgressSpec(t0, userId, lesson.courseId);
    var k := IndexWhere(t1.courseProgress, ProgressOf(userId, lesson.courseId));
    var k0 := IndexWhere(t0.courseProgress, ProgressOf(userId, lesson.courseId));
    if k0.Some? {
      IndexWhereIs(t1.courseProgress, ProgressOf(userId, lesson.courseId), k0.value);
    } else {
      IndexWhereIs(t1.courseProgress, ProgressOf(userId, lesson.courseId), |t0.courseProgress|);
    }
  }

  /** One more lesson extends the views by its own view and the count by its completion. */
  lemma LessonViewsStep(records: seq<LessonProgressRow>, viewer: Option<int>, lessons: seq<LessonRow>, i: nat,
                        views: seq<LessonView>, done: bool)
    requires i < |lessons| && views == LessonViews(records, viewer, lessons[..i])
    requires done == (viewer.Some? && CompletedRecord(records, viewer.value, lessons[i].id))
    ensures views + [LessonView(lessons[i], done)] == LessonViews(records, viewer, lessons[..i + 1])
    ensures CountCompleted(views + [LessonView(lessons[i], done)]) == CountCompleted(views) + (if done then 1 else 0)
  {
    assert lessons[..i + 1][..i] == lessons[..i];
    var extended := views + [LessonView(lessons[i], done)];
    assert extended[..|extended| - 1] == views;
  }

  // ---- the handlers ----

  /** The lesson loop of the list and detail handlers. */
  method BuildLessonViews(db: Session, viewer: Option<int>, lessons: seq<LessonRow>)
    returns (views: seq<LessonView>, completed: nat)
    ensures views == LessonViews(db.lessonProgress, viewer, lessons)
    ensures completed == CountCompleted(views)
  {
    var records := db.lessonProgress;
    views := [];
    completed := 0;
    var i := 0;
    while i < |lessons|
      invariant 0 <= i <= |lessons|
      invariant views == LessonViews(records, viewer, lessons[..i])
      invariant completed == CountCompleted(views)
    {
      var lesson := lessons[i];
      var done := viewer.Some? && CompletedRecord(records, viewer.value, lesson.id);
      if done {
        completed := completed + 1;
      }
      LessonViewsStep(records, viewer, lessons, i, views, done);
      views := views + [LessonView(lesson, done)];
      i := i + 1;
    }
    assert lessons[..i] == lessons;
  }

  method BuildCourseView(db: Session, viewer: Option<int>, course: CourseRow) returns (v: CourseView)
    ensures v == CourseViewSpec(db.CourseTables(), viewer, course)
  {
    var lessons := LessonsOf(db.lessons, course.id);
    var views, completed := BuildLessonViews(db, viewer, lessons);
    var progress := 0;
    if viewer.Some? {
      var k := IndexWhere(db.courseProgress, ProgressOf(viewer.value, course.id));
      if k.Some? {
        progress := db.courseProgress[k.value].progress;
      } else if |views| > 0 {
        progress := ProgressPercent(completed, |views|);
      }
    }
    v := CourseView(course, progress, views);
  }

  /** The course loop of the list handler. */
  method BuildCourseViews(db: Session, viewer: Option<int>, courses: seq<CourseRow>) returns (result: seq<CourseView>)
    ensures result == CourseViews(db.CourseTables(), viewer, courses)
  {
    ghost var t := db.CourseTables();
    result := [];
    var i := 0;
    while i < |courses|
      invariant 0 <= i <= |courses|
      invariant result == CourseViews(t, viewer, courses[..i])
    {
      var v := BuildCourseView(db, viewer, courses[i]);
      MapSnoc(c => CourseViewSpec(t, viewer, c), courses, i);
      result := result + [v];
      i := i + 1;
    }
    assert courses[..i] == courses;
  }

  method ListCourses(db: Session, store: KeyValueStore, viewer: Option<int>,
                     category: Option<string>, search: Option<string>, skip: nat, limit: nat) returns (body: Json)
    requires 1 <= limit <= 100
    modifies store
    ensures (store.State(), body) == ListSpec(AsWritten, db.CourseTables(), old(store.State()), viewer, category, search, skip, limit)
  {
    var key := "";
    if viewer.None? {
      key := ListCacheKey(AsWritten, category, search, skip, limit);
      var cached := store.Get(key);
      if cached != JNull {
        return cached;
      }
    }
    var courses := GetCourses(db.courses, category, search, skip, limit);
    var result := BuildCourseViews(db, viewer, courses);
    body := EncodeList(result);
    // A body holding a course fails in `json.dumps`, and the cache wrapper swallows the error.
    if viewer.None? && Dumps(result) {
      var _ := store.Set(key, body, CacheSeconds);
    }
  }

  /** The store is only read: the handler's `RedisCache.set` of the course dictionary
      fails inside `json.dumps` and is swallowed. */
  method GetCourseDetail(db: Session, store: KeyValueStore, viewer: Option<int>, courseId: int) returns (reply: Reply)
    ensures reply == DetailSpec(db.CourseTables(), store.State(), viewer, courseId)
  {
    var key := DetailKey(courseId);
    if viewer.None? {
      var cached := store.Get(key);
      if cached != JNull {
        return Reply(200, cached);
      }
    }
    var course := GetCourse(db.courses, courseId);
    if course.None? {
      return Reply(404, Detail("Course not found"));
    }
    var v := BuildCourseView(db, viewer, course.value);
    reply := Reply(200, EncodeCourse(v));
  }

  method CreateNewCourse(db: Session, store: KeyValueStore, fields: CourseFields, lessons: seq<LessonFields>)
    returns (reply: Reply)
    modifies db, store
    ensures (db.CourseTables(), store.State(), reply) == CreateEndpointSpec(old(db.CourseTables()), old(store.State()), fields, lessons)
    ensures db.AccountTables() == old(db.AccountTables())
  {
    var created := CreateCourse(db, fields, lessons);
    var _ := store.Delete(DetailKey(created.id));
    var v := BuildCourseView(db, None, created);
    reply := Reply(201, EncodeCourse(v));
  }

  method UpdateCourseInfo(db: Session, store: KeyValueStore, courseId: int, u: CourseUpdate) returns (reply: Reply)
    modifies db, store
    ensures (db.CourseTables(), store.State(), reply) == UpdateEndpointSpec(old(db.CourseTables()), old(store.State()), courseId, u)
    ensures db.AccountTables() == old(db.AccountTables())
  {
    var course := UpdateCourse(db, courseId, u);
    if course.None? {
      return Reply(404, Detail("Course not found"));
    }
    var _ := store.Delete(DetailKey(courseId));
    var v := BuildCourseView(db, None, course.value);
    reply := Reply(200, EncodeCourse(v));
  }

  method DeleteCourseEndpoint(db: Session, store: KeyValueStore, courseId: int) returns (reply: Reply)
    modifies db, store
    ensures (db.CourseTables(), store.State(), reply) == DeleteEndpointSpec(old(db.CourseTables()), old(store.State()), courseId)
    ensures db.AccountTables() == old(db.AccountTables())
  {
    var ok := DeleteCourse(db, courseId);
    if !ok {
      return Reply(404, Detail("Course not found"));
    }
    var _ := store.Delete(DetailKey(courseId));
    reply := Reply(204, JNull);
  }

  method GetLessonDetail(db: Session, viewer: Option<int>, lessonId: int) returns (reply: Reply)
    ensures reply == LessonDetailSpec(db.CourseTables(), viewer, lessonId)
  {
    var lesson := GetLesson(db.lessons, lessonId);
    if lesson.None? {
      return Reply(404, Detail("Lesson not found"));
    }
    var done := false;
    if viewer.Some? {
      var k := IndexWhere(db.lessonProgress, RecordOf(viewer.value, lessonId));
      done := k.Some? && db.lessonProgress[k.value].completed;
    }
    reply := Reply(200, EncodeLesson(LessonView(lesson.value, done)));
  }

  method MarkLesson(db: Session, userId: int, lessonId: int, completed: bool, now: int) returns (reply: Reply)
    modifies db
    ensures (db.CourseTables(), reply) == MarkEndpointSpec(old(db.CourseTables()), userId, lessonId, completed, now)
    ensures db.AccountTables() == old(db.AccountTables())
  {
    var lesson := GetLesson(db.lessons, lessonId);
    if lesson.None? {
      return Reply(404, Detail("Lesson not found"));
    }
    var _ := MarkLessonComplete(db, userId, lessonId, completed, now);
    var message := if completed then "Lesson marked as complete" else "Lesson marked as incomplete";
    reply := Reply(200, JObj(map["message" := JStr(message), "lesson_id" := JInt(lessonId)]));
  }

  method GetCourseProgress(db: Session, userId: int, courseId: int) returns (reply: Reply)
    ensures reply == ProgressReply(CourseProgressSpec(db.CourseTables(), userId, courseId))
  {
    if GetCourse(db.courses, courseId).None? {
      return Reply(404, Detail("Course not found"));
    }
    var k := IndexWhere(db.courseProgress, ProgressOf(userId, courseId));
    var lessons := LessonsOf(db.lessons, courseId);
    var completed := |Filter(lessons, CompletedBy(db.lessonProgress, userId))|;
    var progress := if k.Some? then db.courseProgress[k.value].progress else 0;
    reply := ProgressReply(Some(ProgressReport(courseId, progress, completed, |lessons|)));
  }
}
