/**
 * The course tables' CRUD: courses created with their lessons numbered in list order,
 * partial course updates, cascading deletes, the filtered and paged course list,
 * lessons in display order, and each user's lesson records and course progress.
 * Every method is proved equal to a function of the course tables, and the lemmas
 * state what those functions keep: references between the tables, one record per
 * user and lesson, and progress percentages between 0 and 100.
 */
module EducationCrud {
  import opened Wrappers
  import opened Text
  import opened Database
  import opened Sequences

  // ---- row conditions, named so that every use is the same function ----

  function HasId(id: int): CourseRow -> bool {
    (c: CourseRow) => c.id == id
  }

  function OtherCourse(id: int): CourseRow -> bool {
    (c: CourseRow) => c.id != id
  }

  function LessonHasId(id: int): LessonRow -> bool {
    (l: LessonRow) => l.id == id
  }

  function InCourse(courseId: int): LessonRow -> bool {
    (l: LessonRow) => l.courseId == courseId
  }

  function NotInCourse(courseId: int): LessonRow -> bool {
    (l: LessonRow) => l.courseId != courseId
  }

  function ProgressOf(userId: int, courseId: int): CourseProgressRow -> bool {
    (p: CourseProgressRow) => p.userId == userId && p.courseId == courseId
  }

  function NotProgressIn(courseId: int): CourseProgressRow -> bool {
    (p: CourseProgressRow) => p.courseId != courseId
  }

  function RecordOf(userId: int, lessonId: int): LessonProgressRow -> bool {
    (p: LessonProgressRow) => p.userId == userId && p.lessonId == lessonId
  }

  function NotRecordIn(lessonIds: set<int>): LessonProgressRow -> bool {
    (p: LessonProgressRow) => p.lessonId !in lessonIds
  }

  /** A completed record of the user for one of the given lessons. */
  function CompletedWithin(userId: int, lessonIds: set<int>): LessonProgressRow -> bool {
    (p: LessonProgressRow) => p.userId == userId && p.completed && p.lessonId in lessonIds
  }

  // ---- reading courses and lessons ----

  /** `get_course`: the first course with the id. */
  function GetCourse(courses: seq<CourseRow>, id: int): (r: Option<CourseRow>)
    ensures r.Some? ==> r.value in courses && r.value.id == id
    ensures r.None? <==> forall c | c in courses :: c.id != id
  {
    match IndexWhere(courses, HasId(id))
    case Some(k) => Some(courses[k])
    case None => None
  }

  /** `get_lesson`: the first lesson with the id. */
  function GetLesson(lessons: seq<LessonRow>, id: int): (r: Option<LessonRow>)
    ensures r.Some? ==> r.value in lessons && r.value.id == id
    ensures r.None? <==> forall l | l in lessons :: l.id != id
  {
    match IndexWhere(lessons, LessonHasId(id))
    case Some(k) => Some(lessons[k])
    case None => None
  }

  /** `field ILIKE '%term%'`: the term occurs in the field, ignoring ASCII case. */
  predicate ILike(field: string, term: string) {
    Contains(Lower(field), Lower(term))
  }

  /** The WHERE clause of `get_courses`: a non-empty category must occur in the category,
      a non-empty search term in the title, the description or the instructor. */
  predicate Matches(f: CourseFields, category: Option<string>, search: Option<string>) {
    (Given(category) ==> ILike(f.category, category.value)) &&
    (Given(search) ==> ILike(f.title, search.value) || ILike(f.description, search.value) || ILike(f.instructor, search.value))
  }

  function Matching(category: Option<string>, search: Option<string>): CourseRow -> bool {
    (c: CourseRow) => Matches(c.fields, category, search)
  }

  /** `get_courses`: the window [skip, skip + limit) of the matching courses. */
  function GetCourses(courses: seq<CourseRow>, category: Option<string>, search: Option<string>, skip: nat, limit: nat)
    : (r: seq<CourseRow>)
    ensures |r| <= limit
    ensures forall c | c in r :: c in courses && Matches(c.fields, category, search)
  {
    Window(Filter(courses, Matching(category, search)), skip, limit)
  }

  /** Paging through the list with consecutive windows misses and repeats no course. */
  lemma GetCoursesPagesTile(courses: seq<CourseRow>, category: Option<string>, search: Option<string>, skip: nat, a: nat, b: nat)
    ensures GetCourses(courses, category, search, skip, a) + GetCourses(courses, category, search, skip + a, b)
         == GetCourses(courses, category, search, skip, a + b)
  {
    WindowsConcatenate(Filter(courses, Matching(category, search)), skip, a, b);
  }

  /** Without a category or a search term, the first page as long as the table is the table. */
  lemma UnfilteredListIsTable(courses: seq<CourseRow>, category: Option<string>, search: Option<string>)
    requires !Given(category) && !Given(search)
    ensures GetCourses(courses, category, search, 0, |courses|) == courses
  {
    FilterKeepsAll(courses, Matching(category, search));
  }

  // ---- lessons in display order ----

  predicate SortedByOrder(s: seq<LessonRow>) {
    forall i, j | 0 <= i < j < |s| :: s[i].fields.order <= s[j].fields.order
  }

  /** Places `x` before the first lesson whose order is not below its own. */
  function InsertByOrder(x: LessonRow, s: seq<LessonRow>): (r: seq<LessonRow>)
    ensures multiset(r) == multiset(s) + multiset{x}
  {
    if |s| == 0 || x.fields.order <= s[0].fields.order then [x] + s
    else
      assert s == [s[0]] + s[1..];
      [s[0]] + InsertByOrder(x, s[1..])
  }

  /** Inserting into a list sorted by order keeps it sorted. */
  lemma {:induction false} InsertByOrderSorted(x: LessonRow, s: seq<LessonRow>)
    requires SortedByOrder(s)
    ensures SortedByOrder(InsertByOrder(x, s))
    decreases |s|
  {
    if |s| == 0 || x.fields.order <= s[0].fields.order {
      SortedCons(x, s);
    } else {
      var rest := InsertByOrder(x, s[1..]);
      InsertByOrderSorted(x, s[1..]);
      forall k | 0 <= k < |rest|
        ensures s[0].fields.order <= rest[k].fields.order
      {
        assert rest[k] in multiset(rest);
        if rest[k] != x {
          assert rest[k] in multiset(s[1..]);
          var j :| 0 <= j < |s[1..]| && s[1..][j] == rest[k];
          assert s[j + 1] == rest[k];
        }
      }
      SortedCons(s[0], rest);
    }
  }

  lemma SortedCons(h: LessonRow, s: seq<LessonRow>)
    requires SortedByOrder(s)
    requires forall k | 0 <= k < |s| :: h.fields.order <= s[k].fields.order
    ensures SortedByOrder([h] + s)
  {
    var r := [h] + s;
    forall i, j | 0 <= i < j < |r|
      ensures r[i].fields.order <= r[j].fields.order
    {
      assert r[j] == s[j - 1];
      if i > 0 {
        assert r[i] == s[i - 1];
      }
    }
  }

  /** `ORDER BY order`: the lessons rearranged so that their orders never decrease. */
  function SortByOrder(s: seq<LessonRow>): (r: seq<LessonRow>)
    ensures SortedByOrder(r)
    ensures multiset(r) == multiset(s)
  {
    if |s| == 0 then []
    else
      assert s == [s[0]] + s[1..];
      var rest := SortByOrder(s[1..]);
      InsertByOrderSorted(s[0], rest);
      InsertByOrder(s[0], rest)
  }

  /** Lessons already in order are left where they are. */
  lemma {:induction false} SortSortedIsIdentity(s: seq<LessonRow>)
    requires SortedByOrder(s)
    ensures SortByOrder(s) == s
    decreases |s|
  {
    if |s| > 0 {
      SortSortedIsIdentity(s[1..]);
      assert s == [s[0]] + s[1..];
    }
  }

  /** `get_lessons_by_course`: the course's lessons, sorted by `order`. */
  function LessonsOf(lessons: seq<LessonRow>, courseId: int): (r: seq<LessonRow>)
    ensures SortedByOrder(r)
    ensures forall l :: l in r <==> l in lessons && l.courseId == courseId
    ensures |r| == |Filter(lessons, InCourse(courseId))|
  {
    var own := Filter(lessons, InCourse(courseId));
    var r := SortByOrder(own);
    assert forall l :: l in r <==> l in multiset(own);
    assert |r| == |multiset(r)|;
    r
  }

  // ---- the course tables' consistency ----

  function CourseIds(courses: seq<CourseRow>): set<int> {
    set c | c in courses :: c.id
  }

  function AllLessonIds(lessons: seq<LessonRow>): set<int> {
    set l | l in lessons :: l.id
  }

  /** The ids of the lessons of one course; there are no more of them than lessons. */
  function LessonIds(lessons: seq<LessonRow>, courseId: int): (r: set<int>)
    ensures |r| <= |Filter(lessons, InCourse(courseId))|
    ensures forall l | l in lessons && l.courseId == courseId :: l.id in r
    ensures r <= AllLessonIds(lessons)
  {
    if |lessons| == 0 then {}
    else
      assert lessons == [lessons[0]] + lessons[1..];
      var rest := LessonIds(lessons[1..], courseId);
      if lessons[0].courseId == courseId then {lessons[0].id} + rest else rest
  }

  /** The foreign keys hold (every lesson and progress row points at a row that exists),
      and the autoincrement counters are above every id handed out. */
  predicate WellFormed(t: Courses) {
    (forall c | c in t.courses :: 0 < c.id < t.nextCourseId) &&
    (forall l | l in t.lessons :: 0 < l.id < t.nextLessonId) &&
    (forall l | l in t.lessons :: l.courseId in CourseIds(t.courses)) &&
    (forall p | p in t.courseProgress :: p.courseId in CourseIds(t.courses)) &&
    (forall p | p in t.lessonProgress :: p.lessonId in AllLessonIds(t.lessons))
  }

  /** The unique constraint on (user_id, lesson_id). */
  predicate UniqueRecords(rows: seq<LessonProgressRow>) {
    forall i, j | 0 <= i < j < |rows| :: !(rows[i].userId == rows[j].userId && rows[i].lessonId == rows[j].lessonId)
  }

  /** Every stored course progress is a percentage. */
  predicate ProgressBounded(rows: seq<CourseProgressRow>) {
    forall i | 0 <= i < |rows| :: 0 <= rows[i].progress <= 100
  }

  // ---- create ----

  /** The lesson rows of a new course: consecutive ids from `firstId`, and orders 1..n
      in list order, whatever order each lesson arrived with. */
  function NumberLessons(courseId: int, firstId: int, lessons: seq<LessonFields>): (r: seq<LessonRow>)
    ensures |r| == |lessons|
    ensures forall k | 0 <= k < |r| :: r[k] == LessonRow(firstId + k, courseId, lessons[k].(order := k + 1))
  {
    if |lessons| == 0 then []
    else
      var n := |lessons| - 1;
      NumberLessons(courseId, firstId, lessons[..n]) + [LessonRow(firstId + n, courseId, lessons[n].(order := n + 1))]
  }

  /** `create_course`: the tables with the course and its lessons added, and the course. */
  function CreateCourseSpec(t: Courses, fields: CourseFields, lessons: seq<LessonFields>): (r: (Courses, CourseRow))
    ensures r.1 == CourseRow(t.nextCourseId, fields)
    ensures r.0.courses == t.courses + [r.1]
    ensures r.0.courseProgress == t.courseProgress && r.0.lessonProgress == t.lessonProgress
  {
    var course := CourseRow(t.nextCourseId, fields);
    (t.(courses := t.courses + [course],
        lessons := t.lessons + NumberLessons(course.id, t.nextLessonId, lessons),
        nextCourseId := t.nextCourseId + 1,
        nextLessonId := t.nextLessonId + |lessons|),
     course)
  }

  method CreateCourse(db: Session, fields: CourseFields, lessons: seq<LessonFields>) returns (course: CourseRow)
    modifies db
    ensures (db.CourseTables(), course) == CreateCourseSpec(old(db.CourseTables()), fields, lessons)
    ensures db.AccountTables() == old(db.AccountTables())
  {
    course := CourseRow(db.nextCourseId, fields);
    db.courses := db.courses + [course];
    db.nextCourseId := db.nextCourseId + 1;
    ghost var firstId := db.nextLessonId;
    var i := 0;
    while i < |lessons|
      invariant 0 <= i <= |lessons|
      invariant db.lessons == old(db.lessons) + NumberLessons(course.id, firstId, lessons[..i])
      invariant db.nextLessonId == firstId + i
      invariant db.CourseTables() == old(db.CourseTables()).(courses := db.courses, lessons := db.lessons,
                  nextCourseId := course.id + 1, nextLessonId := db.nextLessonId)
      invariant db.courses == old(db.courses) + [course] && course.id == old(db.nextCourseId)
      invariant db.AccountTables() == old(db.AccountTables())
    {
      assert lessons[..i + 1][..i] == lessons[..i];
      db.lessons := db.lessons + [LessonRow(db.nextLessonId, course.id, lessons[i].(order := i + 1))];
      db.nextLessonId := db.nextLessonId + 1;
      i := i + 1;
    }
    assert lessons[..i] == lessons;
  }

  /** Creating a course keeps the tables well formed. */
  lemma CreateKeepsWellFormed(t: Courses, fields: CourseFields, lessons: seq<LessonFields>)
    requires WellFormed(t) && t.nextCourseId > 0 && t.nextLessonId > 0
    ensures WellFormed(CreateCourseSpec(t, fields, lessons).0)
  {
    var (t1, course) := CreateCourseSpec(t, fields, lessons);
    assert course.id in CourseIds(t1.courses);
    assert CourseIds(t.courses) <= CourseIds(t1.courses);
    assert AllLessonIds(t.lessons) <= AllLessonIds(t1.lessons);
  }

  /** A new course's lessons, as `get_lessons_by_course` returns them, are exactly the
      submitted lessons in the submitted order, numbered 1..n. */
  lemma CreatedLessonsInListOrder(t: Courses, fields: CourseFields, lessons: seq<LessonFields>)
    requires WellFormed(t)
    ensures var (t1, course) := CreateCourseSpec(t, fields, lessons);
      LessonsOf(t1.lessons, course.id) == NumberLessons(course.id, t.nextLessonId, lessons)
  {
    var (t1, course) := CreateCourseSpec(t, fields, lessons);
    var added := NumberLessons(course.id, t.nextLessonId, lessons);
    FilterAppend(t.lessons, added, InCourse(course.id));
    forall i | 0 <= i < |t.lessons|
      ensures !InCourse(course.id)(t.lessons[i])
    {
      assert t.lessons[i] in t.lessons;
    }
    FilterKeepsNone(t.lessons, InCourse(course.id));
    FilterKeepsAll(added, InCourse(course.id));
    assert Filter(t1.lessons, InCourse(course.id)) == added;
    SortSortedIsIdentity(added);
  }

  // ---- update ----

  /** The fields a client set in a course update; unset fields are None. */
  datatype CourseUpdate = CourseUpdate(
    title: Option<string>,
    description: Option<string>,
    level: Option<string>,
    duration: Option<string>,
    modules: Option<int>,
    category: Option<string>,
    instructor: Option<string>,
    icon: Option<string>)

  function PatchCourse(f: CourseFields, u: CourseUpdate): CourseFields {
    CourseFields(
      u.title.GetOr(f.title), u.description.GetOr(f.description), u.level.GetOr(f.level),
      u.duration.GetOr(f.duration), u.modules.GetOr(f.modules), u.category.GetOr(f.category),
      u.instructor.GetOr(f.instructor), u.icon.GetOr(f.icon))
  }

  /** An update with nothing set changes nothing, and every set field takes its new value. */
  lemma PatchSetsExactlyTheSetFields(f: CourseFields, u: CourseUpdate)
    ensures u == CourseUpdate(None, None, None, None, None, None, None, None) ==> PatchCourse(f, u) == f
    ensures u.title.Some? ==> PatchCourse(f, u).title == u.title.value
    ensures u.category.Some? ==> PatchCourse(f, u).category == u.category.value
    ensures u.modules.Some? ==> PatchCourse(f, u).modules == u.modules.value
    ensures u.title.None? && u.description.None? && u.instructor.None? && u.category.None? ==>
      (Matches(PatchCourse(f, u), None, None) && PatchCourse(f, u).title == f.title &&
       PatchCourse(f, u).description == f.description && PatchCourse(f, u).instructor == f.instructor &&
       PatchCourse(f, u).category == f.category)
  {
  }

  /** `update_course`: the tables and the updated course, or nothing for an unknown id. */
  function UpdateCourseSpec(t: Courses, id: int, u: CourseUpdate): (r: (Courses, Option<CourseRow>))
    ensures r.1.None? <==> GetCourse(t.courses, id).None?
    ensures r.1.None? ==> r.0 == t
    ensures r.1.Some? ==> r.1.value == CourseRow(id, PatchCourse(GetCourse(t.courses, id).value.fields, u))
    ensures r.0 == t.(courses := r.0.courses) && |r.0.courses| == |t.courses|
    ensures r.1.Some? ==> r.0.courses == t.courses[IndexWhere(t.courses, HasId(id)).value := r.1.value]
    ensures forall j | 0 <= j < |t.courses| && t.courses[j].id != id :: r.0.courses[j] == t.courses[j]
  {
    match IndexWhere(t.courses, HasId(id))
    case None => (t, None)
    case Some(k) =>
      var row := t.courses[k].(fields := PatchCourse(t.courses[k].fields, u));
      (t.(courses := t.courses[k := row]), Some(row))
  }

  /** After an update, `get_course` returns the updated row. */
  lemma UpdateThenGet(t: Courses, id: int, u: CourseUpdate)
    requires GetCourse(t.courses, id).Some?
    ensures GetCourse(UpdateCourseSpec(t, id, u).0.courses, id) == UpdateCourseSpec(t, id, u).1
  {
    var k := IndexWhere(t.courses, HasId(id)).value;
    IndexWhereIs(UpdateCourseSpec(t, id, u).0.courses, HasId(id), k);
  }

  method UpdateCourse(db: Session, id: int, u: CourseUpdate) returns (r: Option<CourseRow>)
    modifies db
    ensures (db.CourseTables(), r) == UpdateCourseSpec(old(db.CourseTables()), id, u)
    ensures db.AccountTables() == old(db.AccountTables())
  {
    var k := IndexWhere(db.courses, HasId(id));
    if k.None? {
      return None;
    }
    var f := db.courses[k.value].fields;
    // one assignment per field the update sets, as the `setattr` loop does
    f := f.(title := u.title.GetOr(f.title));
    f := f.(description := u.description.GetOr(f.description));
    f := f.(level := u.level.GetOr(f.level));
    f := f.(duration := u.duration.GetOr(f.duration));
    f := f.(modules := u.modules.GetOr(f.modules));
    f := f.(category := u.category.GetOr(f.category));
    f := f.(instructor := u.instructor.GetOr(f.instructor));
    f := f.(icon := u.icon.GetOr(f.icon));
    var row := db.courses[k.value].(fields := f);
    db.courses := db.courses[k.value := row];
    r := Some(row);
  }

  // ---- delete ----

  /** `delete_course`: unknown ids change nothing; otherwise the course goes, and with it
      (the ORM's delete-orphan cascades) its lessons, their progress records and the
      course progress rows. */
  function DeleteCourseSpec(t: Courses, id: int): (r: (Courses, bool))
    ensures r.1 <==> GetCourse(t.courses, id).Some?
    ensures !r.1 ==> r.0 == t
    ensures r.1 ==> GetCourse(r.0.courses, id).None? && LessonsOf(r.0.lessons, id) == []
    ensures forall c | c in t.courses && c.id != id :: c in r.0.courses
  {
    if GetCourse(t.courses, id).None? then (t, false)
    else
      var gone := LessonIds(t.lessons, id);
      var t1 := t.(courses := Filter(t.courses, OtherCourse(id)),
                   lessons := Filter(t.lessons, NotInCourse(id)),
                   courseProgress := Filter(t.courseProgress, NotProgressIn(id)),
                   lessonProgress := Filter(t.lessonProgress, NotRecordIn(gone)));
      assert |LessonsOf(t1.lessons, id)| == 0 by {
        FilterKeepsNone(t1.lessons, InCourse(id));
      }
      (t1, true)
  }

  /** Deleting a course leaves no row pointing at it or at its lessons. */
  lemma DeleteKeepsWellFormed(t: Courses, id: int)
    requires WellFormed(t)
    ensures WellFormed(DeleteCourseSpec(t, id).0)
  {
    var (t1, ok) := DeleteCourseSpec(t, id);
    if ok {
      var gone := LessonIds(t.lessons, id);
      forall l | l in t1.lessons
        ensures l.courseId in CourseIds(t1.courses)
      {
        var c :| c in t.courses && c.id == l.courseId;
        assert c in t1.courses;
      }
      forall p | p in t1.courseProgress
        ensures p.courseId in CourseIds(t1.courses)
      {
        var c :| c in t.courses && c.id == p.courseId;
        assert c in t1.courses;
      }
      forall p | p in t1.lessonProgress
        ensures p.lessonId in AllLessonIds(t1.lessons)
      {
        var l :| l in t.lessons && l.id == p.lessonId;
        assert l in t1.lessons;
      }
    }
  }

  method DeleteCourse(db: Session, id: int) returns (ok: bool)
    modifies db
    ensures (db.CourseTables(), ok) == DeleteCourseSpec(old(db.CourseTables()), id)
    ensures db.AccountTables() == old(db.AccountTables())
  {
    if GetCourse(db.courses, id).None? {
      return false;
    }
    ghost var t := db.CourseTables();
    var gone := LessonIds(db.lessons, id);
    db.courses := Filter(db.courses, OtherCourse(id));
    db.lessonProgress := Filter(db.lessonProgress, NotRecordIn(gone));
    db.lessons := Filter(db.lessons, NotInCourse(id));
    db.courseProgress := Filter(db.courseProgress, NotProgressIn(id));
    ok := true;
    assert (db.CourseTables(), ok) == DeleteCourseSpec(t, id);
  }

  // ---- progress ----

  /** `get_or_create_user_course_progress`: the user's first record for the course, or a
      new one at 0 when there is none. */
  function GetOrCreateSpec(t: Courses, userId: int, courseId: int): (r: (Courses, CourseProgressRow))
    ensures r.1.userId == userId && r.1.courseId == courseId
    ensures IndexWhere(t.courseProgress, ProgressOf(userId, courseId)).Some? ==> r.0 == t && r.1 in t.courseProgress
    ensures IndexWhere(t.courseProgress, ProgressOf(userId, courseId)).None? ==>
      r.1.progress == 0 && r.0 == t.(courseProgress := t.courseProgress + [r.1])
  {
    match IndexWhere(t.courseProgress, ProgressOf(userId, courseId))
    case Some(k) => (t, t.courseProgress[k])
    case None =>
      var row := CourseProgressRow(userId, courseId, 0);
      (t.(courseProgress := t.courseProgress + [row]), row)
  }

  /** Getting or creating twice creates at most once. */
  lemma GetOrCreateIdempotent(t: Courses, userId: int, courseId: int)
    ensures var (t1, row) := GetOrCreateSpec(t, userId, courseId);
      GetOrCreateSpec(t1, userId, courseId) == (t1, row)
  {
    var (t1, row) := GetOrCreateSpec(t, userId, courseId);
    var k := IndexWhere(t.courseProgress, ProgressOf(userId, courseId));
    if k.None? {
      IndexWhereIs(t1.courseProgress, ProgressOf(userId, courseId), |t.courseProgress|);
    }
  }

  method GetOrCreateProgress(db: Session, userId: int, courseId: int) returns (row: CourseProgressRow)
    modifies db
    ensures (db.CourseTables(), row) == GetOrCreateSpec(old(db.CourseTables()), userId, courseId)
    ensures db.AccountTables() == old(db.AccountTables())
  {
    var k := IndexWhere(db.courseProgress, ProgressOf(userId, courseId));
    if k.Some? {
      return db.courseProgress[k.value];
    }
    row := CourseProgressRow(userId, courseId, 0);
    db.courseProgress := db.courseProgress + [row];
  }

  /** The user's completed records for lessons of the course (the joined COUNT). */
  function CompletedCount(t: Courses, userId: int, courseId: int): nat {
    |Filter(t.lessonProgress, CompletedWithin(userId, LessonIds(t.lessons, courseId)))|
  }

  function TotalCount(t: Courses, courseId: int): nat {
    |Filter(t.lessons, InCourse(courseId))|
  }

  /** `int((completed / total) * 100)` when there are lessons, else 0, with exact division. */
  function ProgressPercent(completed: int, total: int): (r: int)
    ensures total <= 0 ==> r == 0
    ensures 0 <= completed <= total ==> 0 <= r <= 100
  {
    if total > 0 then (100 * completed) / total else 0
  }

  /** The percentage is rounded down: it is the largest p with p * total <= 100 * completed. */
  lemma PercentIsFloor(completed: int, total: int)
    requires total > 0
    ensures ProgressPercent(completed, total) * total <= 100 * completed < (ProgressPercent(completed, total) + 1) * total
  {
  }

  /** With one record per user and lesson, completed records are never more than the
      lessons they point at. */
  lemma {:induction false} CompletedWithinBound(rows: seq<LessonProgressRow>, userId: int, lessonIds: set<int>)
    requires UniqueRecords(rows)
    ensures |Filter(rows, CompletedWithin(userId, lessonIds))| <= |lessonIds|
    decreases |rows|
  {
    if |rows| > 0 {
      var p := rows[0];
      var rest := rows[1..];
      assert UniqueRecords(rest) by {
        forall i, j | 0 <= i < j < |rest|
          ensures !(rest[i].userId == rest[j].userId && rest[i].lessonId == rest[j].lessonId)
        {
          assert rest[i] == rows[i + 1] && rest[j] == rows[j + 1];
        }
      }
      if CompletedWithin(userId, lessonIds)(p) {
        var fewer := lessonIds - {p.lessonId};
        forall i | 0 <= i < |rest|
          ensures CompletedWithin(userId, lessonIds)(rest[i]) == CompletedWithin(userId, fewer)(rest[i])
        {
          assert rest[i] == rows[i + 1];
        }
        FilterAgree(rest, CompletedWithin(userId, lessonIds), CompletedWithin(userId, fewer));
        CompletedWithinBound(rest, userId, fewer);
      } else {
        CompletedWithinBound(rest, userId, lessonIds);
      }
    }
  }

  lemma CompletedAtMostTotal(t: Courses, userId: int, courseId: int)
    requires UniqueRecords(t.lessonProgress)
    ensures CompletedCount(t, userId, courseId) <= TotalCount(t, courseId)
  {
    CompletedWithinBound(t.lessonProgress, userId, LessonIds(t.lessons, courseId));
  }

  /** `update_user_course_progress`: the user's record for the course (created if need be)
      set to the percentage of the course's lessons the user has completed. */
  function UpdateProgressSpec(t: Courses, userId: int, courseId: int): (r: (Courses, CourseProgressRow))
    ensures r.1.userId == userId && r.1.courseId == courseId
    ensures r.1.progress == ProgressPercent(CompletedCount(t, userId, courseId), TotalCount(t, courseId))
    ensures r.0 == t.(courseProgress := r.0.courseProgress)
    ensures r.1 in r.0.courseProgress
  {
    var p := ProgressPercent(CompletedCount(t, userId, courseId), TotalCount(t, courseId));
    match IndexWhere(t.courseProgress, ProgressOf(userId, courseId))
    case Some(k) =>
      var row := t.courseProgress[k].(progress := p);
      assert t.courseProgress[k := row][k] == row;
      (t.(courseProgress := t.courseProgress[k := row]), row)
    case None =>
      var row := CourseProgressRow(userId, courseId, p);
      (t.(courseProgress := t.courseProgress + [row]), row)
  }

  /** Under the unique constraint, recomputed progress is a percentage, and stored
      progress stays a percentage. */
  lemma UpdateProgressInRange(t: Courses, userId: int, courseId: int)
    requires UniqueRecords(t.lessonProgress) && ProgressBounded(t.courseProgress)
    ensures 0 <= UpdateProgressSpec(t, userId, courseId).1.progress <= 100
    ensures ProgressBounded(UpdateProgressSpec(t, userId, courseId).0.courseProgress)
  {
    CompletedAtMostTotal(t, userId, courseId);
  }

  method UpdateUserCourseProgress(db: Session, userId: int, courseId: int) returns (row: CourseProgressRow)
    modifies db
    ensures (db.CourseTables(), row) == UpdateProgressSpec(old(db.CourseTables()), userId, courseId)
    ensures db.AccountTables() == old(db.AccountTables())
  {
    ghost var t := db.CourseTables();
    var created := GetOrCreateProgress(db, userId, courseId);
    var completed := |Filter(db.lessonProgress, CompletedWithin(userId, LessonIds(db.lessons, courseId)))|;
    var total := |Filter(db.lessons, InCourse(courseId))|;
    assert completed == CompletedCount(t, userId, courseId) && total == TotalCount(t, courseId);
    var k := IndexWhere(db.courseProgress, ProgressOf(userId, courseId));
    if IndexWhere(t.courseProgress, ProgressOf(userId, courseId)).None? {
      IndexWhereIs(db.courseProgress, ProgressOf(userId, courseId), |t.courseProgress|);
      assert db.courseProgress[k.value] == CourseProgressRow(userId, courseId, 0);
    }
    row := db.courseProgress[k.value].(progress := ProgressPercent(completed, total));
    db.courseProgress := db.courseProgress[k.value := row];
    if IndexWhere(t.courseProgress, ProgressOf(userId, courseId)).None? {
      assert db.courseProgress == t.courseProgress + [row];
    }
  }

  /** `mark_lesson_complete`: upsert the user's record for the lesson, stamping
      `completed_at` only when completing, then recompute the progress of the lesson's
      course (when the lesson exists). */
  function MarkLessonSpec(t: Courses, userId: int, lessonId: int, completed: bool, now: int)
    : (r: (Courses, LessonProgressRow))
    ensures r.1.userId == userId && r.1.lessonId == lessonId && r.1.completed == completed
    ensures completed ==> r.1.completedAt == Some(now)
    ensures !completed && IndexWhere(t.lessonProgress, RecordOf(userId, lessonId)).Some? ==>
      r.1.completedAt == t.lessonProgress[IndexWhere(t.lessonProgress, RecordOf(userId, lessonId)).value].completedAt
    ensures !completed && IndexWhere(t.lessonProgress, RecordOf(userId, lessonId)).None? ==> r.1.completedAt.None?
    ensures r.0.courses == t.courses && r.0.lessons == t.lessons
  {
    var (t1, rec) := UpsertRecord(t, userId, lessonId, completed, now);
    match GetLesson(t1.lessons, lessonId)
    case Some(lesson) => (UpdateProgressSpec(t1, userId, lesson.courseId).0, rec)
    case None => (t1, rec)
  }

  /** The upsert half of `mark_lesson_complete`. */
  function UpsertRecord(t: Courses, userId: int, lessonId: int, completed: bool, now: int)
    : (r: (Courses, LessonProgressRow))
    ensures r.0 == t.(lessonProgress := r.0.lessonProgress)
    ensures r.1.userId == userId && r.1.lessonId == lessonId && r.1.completed == completed
  {
    match IndexWhere(t.lessonProgress, RecordOf(userId, lessonId))
    case Some(k) =>
      var old_ := t.lessonProgress[k];
      var rec := old_.(completed := completed, completedAt := if completed then Some(now) else old_.completedAt);
      (t.(lessonProgress := t.lessonProgress[k := rec]), rec)
    case None =>
      var rec := LessonProgressRow(userId, lessonId, completed, if completed then Some(now) else None);
      (t.(lessonProgress := t.lessonProgress + [rec]), rec)
  }

  /** The upsert keeps one record per user and lesson, and afterwards the user's record
      for the lesson (what `get_user_lesson_progress` returns) is the one written. */
  lemma UpsertKeepsOneRecord(t: Courses, userId: int, lessonId: int, completed: bool, now: int)
    requires UniqueRecords(t.lessonProgress)
    ensures var (t1, rec) := UpsertRecord(t, userId, lessonId, completed, now);
      UniqueRecords(t1.lessonProgress) &&
      IndexWhere(t1.lessonProgress, RecordOf(userId, lessonId)).Some? &&
      t1.lessonProgress[IndexWhere(t1.lessonProgress, RecordOf(userId, lessonId)).value] == rec
  {
    var (t1, rec) := UpsertRecord(t, userId, lessonId, completed, now);
    var rows := t.lessonProgress;
    var after := t1.lessonProgress;
    match IndexWhere(rows, RecordOf(userId, lessonId))
    case Some(k) =>
      assert after == rows[k := rec];
      IndexWhereIs(after, RecordOf(userId, lessonId), k);
      forall i, j | 0 <= i < j < |after|
        ensures !(after[i].userId == after[j].userId && after[i].lessonId == after[j].lessonId)
      {
        assert after[i].userId == rows[i].userId && after[i].lessonId == rows[i].lessonId;
        assert after[j].userId == rows[j].userId && after[j].lessonId == rows[j].lessonId;
      }
    case None =>
      assert after == rows + [rec];
      IndexWhereIs(after, RecordOf(userId, lessonId), |rows|);
      forall i, j | 0 <= i < j < |after|
        ensures !(after[i].userId == after[j].userId && after[i].lessonId == after[j].lessonId)
      {
        assert after[i] == rows[i];
        if j < |rows| {
          assert after[j] == rows[j];
        }
      }
  }

  /** Marking keeps one record per user and lesson, and afterwards the user's record for
      the lesson holds the new state. */
  lemma MarkKeepsOneRecord(t: Courses, userId: int, lessonId: int, completed: bool, now: int)
    requires UniqueRecords(t.lessonProgress)
    ensures var (t1, rec) := MarkLessonSpec(t, userId, lessonId, completed, now);
      UniqueRecords(t1.lessonProgress) &&
      IndexWhere(t1.lessonProgress, RecordOf(userId, lessonId)).Some? &&
      t1.lessonProgress[IndexWhere(t1.lessonProgress, RecordOf(userId, lessonId)).value] == rec
  {
    UpsertKeepsOneRecord(t, userId, lessonId, completed, now);
    assert MarkLessonSpec(t, userId, lessonId, completed, now).0.lessonProgress
        == UpsertRecord(t, userId, lessonId, completed, now).0.lessonProgress;
  }

  /** Recomputing the progress for an existing course keeps the tables well formed and
      stored progress a percentage. */
  lemma UpdateProgressKeepsInvariants(t: Courses, userId: int, courseId: int)
    requires WellFormed(t) && UniqueRecords(t.lessonProgress) && ProgressBounded(t.courseProgress)
    requires courseId in CourseIds(t.courses)
    ensures var t1 := UpdateProgressSpec(t, userId, courseId).0;
      WellFormed(t1) && ProgressBounded(t1.courseProgress)
  {
    UpdateProgressInRange(t, userId, courseId);
    var (t1, row) := UpdateProgressSpec(t, userId, courseId);
    forall p | p in t1.courseProgress
      ensures p.courseId in CourseIds(t1.courses)
    {
      if p != row {
        assert p in t.courseProgress;
      }
    }
  }

  /** Upserting a record for an existing lesson keeps the tables well formed. */
  lemma UpsertKeepsWellFormed(t: Courses, userId: int, lessonId: int, completed: bool, now: int)
    requires WellFormed(t)
    requires lessonId in AllLessonIds(t.lessons)
    ensures WellFormed(UpsertRecord(t, userId, lessonId, completed, now).0)
  {
    var (t1, rec) := UpsertRecord(t, userId, lessonId, completed, now);
    forall p | p in t1.lessonProgress
      ensures p.lessonId in AllLessonIds(t1.lessons)
    {
      if p != rec {
        assert p in t.lessonProgress;
      }
    }
  }

  /** Marking keeps the tables well formed and every stored progress a percentage,
      provided the lesson exists (the endpoints answer 404 otherwise). */
  lemma MarkKeepsInvariants(t: Courses, userId: int, lessonId: int, completed: bool, now: int)
    requires WellFormed(t) && UniqueRecords(t.lessonProgress) && ProgressBounded(t.courseProgress)
    requires GetLesson(t.lessons, lessonId).Some?
    ensures var t1 := MarkLessonSpec(t, userId, lessonId, completed, now).0;
      WellFormed(t1) && ProgressBounded(t1.courseProgress)
  {
    var t1 := UpsertRecord(t, userId, lessonId, completed, now).0;
    var lesson := GetLesson(t.lessons, lessonId).value;
    assert lessonId in AllLessonIds(t.lessons);
    assert lesson.courseId in CourseIds(t.courses);
    UpsertKeepsWellFormed(t, userId, lessonId, completed, now);
    UpsertKeepsOneRecord(t, userId, lessonId, completed, now);
    UpdateProgressKeepsInvariants(t1, userId, lesson.courseId);
  }

  method MarkLessonComplete(db: Session, userId: int, lessonId: int, completed: bool, now: int)
    returns (rec: LessonProgressRow)
    modifies db
    ensures (db.CourseTables(), rec) == MarkLessonSpec(old(db.CourseTables()), userId, lessonId, completed, now)
    ensures db.AccountTables() == old(db.AccountTables())
  {
    var k := IndexWhere(db.lessonProgress, RecordOf(userId, lessonId));
    if k.None? {
      rec := LessonProgressRow(userId, lessonId, completed, None);
      if completed {
        rec := rec.(completedAt := Some(now));
      }
      db.lessonProgress := db.lessonProgress + [rec];
    } else {
      rec := db.lessonProgress[k.value].(completed := completed);
      if completed {
        rec := rec.(completedAt := Some(now));
      }
      db.lessonProgress := db.lessonProgress[k.value := rec];
    }
    var lesson := GetLesson(db.lessons, lessonId);
    if lesson.Some? {
      var _ := UpdateUserCourseProgress(db, userId, lesson.value.courseId);
    }
  }
}
