/**
 * The relational tables behind the account and course endpoints, as one SQL session.
 * Rows are kept in insertion order, which is the order a query without ORDER BY returns
 * them in here; `first()` is therefore the earliest matching row. A user's id is its
 * position in `users` plus one (ids come from an autoincrement column and users are
 * never deleted); courses and lessons carry their id, since courses can be deleted.
 */
module Database {
  import opened Wrappers

  /** The clock counts microseconds, as the key-value store's does. */
  const MicrosPerHour: int := 3_600_000_000

  /** A row of `users`. The Stripe ids are written by the plan update. */
  datatype UserRow = UserRow(
    email: string,
    hashedPassword: string,
    fullName: string,
    isActive: bool,
    isVerified: bool,
    plan: string,
    stripeCustomerId: Option<string>,
    stripeSubscriptionId: Option<string>,
    lastLogin: Option<int>)

  /** A row of `email_verifications` or `password_resets`. */
  datatype TokenRow = TokenRow(userId: int, token: string, expiresAt: int, isUsed: bool)

  /** The account tables: user `id` is `users[id - 1]`. */
  datatype Accounts = Accounts(users: seq<UserRow>, emailVerifications: seq<TokenRow>, passwordResets: seq<TokenRow>)

  /** The columns of `courses` that a client supplies. */
  datatype CourseFields = CourseFields(
    title: string,
    description: string,
    level: string,
    duration: string,
    modules: int,
    category: string,
    instructor: string,
    icon: string)

  datatype CourseRow = CourseRow(id: int, fields: CourseFields)

  /** The columns of `lessons` that a client supplies (`type` is renamed `kind`). */
  datatype LessonFields = LessonFields(title: string, duration: string, kind: string, content: Option<string>, order: int)

  datatype LessonRow = LessonRow(id: int, courseId: int, fields: LessonFields)

  datatype CourseProgressRow = CourseProgressRow(userId: int, courseId: int, progress: int)

  datatype LessonProgressRow = LessonProgressRow(userId: int, lessonId: int, completed: bool, completedAt: Option<int>)

  /** The course tables, with the next values of the two autoincrement ids. */
  datatype Courses = Courses(
    courses: seq<CourseRow>,
    lessons: seq<LessonRow>,
    courseProgress: seq<CourseProgressRow>,
    lessonProgress: seq<LessonProgressRow>,
    nextCourseId: int,
    nextLessonId: int)

  /** A database session: every table, updated in place by the CRUD operations. */
  class Session {
    var users: seq<UserRow>
    var emailVerifications: seq<TokenRow>
    var passwordResets: seq<TokenRow>
    var courses: seq<CourseRow>
    var lessons: seq<LessonRow>
    var courseProgress: seq<CourseProgressRow>
    var lessonProgress: seq<LessonProgressRow>
    var nextCourseId: int
    var nextLessonId: int

    ghost function AccountTables(): Accounts
      reads this
    {
      Accounts(users, emailVerifications, passwordResets)
    }

    ghost function CourseTables(): Courses
      reads this
    {
      Courses(courses, lessons, courseProgress, lessonProgress, nextCourseId, nextLessonId)
    }

    /** An empty database whose autoincrement ids start at 1. */
    constructor ()
      ensures AccountTables() == Accounts([], [], [])
      ensures CourseTables() == Courses([], [], [], [], 1, 1)
    {
      users := [];
      emailVerifications := [];
      passwordResets := [];
      courses := [];
      lessons := [];
      courseProgress := [];
      lessonProgress := [];
      nextCourseId := 1;
      nextLessonId := 1;
    }
  }
}
