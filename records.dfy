/** The JSON records the service exchanges (the `Codable` structs of
    APIService.swift). Every response is an envelope `{success, data, ...}`
    around an operation-specific payload. Field names follow the JSON keys
    in camel case (`student_id` is `studentId`); Swift's `Int` is `int`. */
module Records {
  import opened Wrappers

  datatype Student = Student(id: string, studentId: string, fullName: string, createdAt: string)

  datatype StudentsData = StudentsData(students: seq<Student>, total: int)

  datatype StudentsResponse = StudentsResponse(success: bool, data: StudentsData)

  datatype StudentCheckIn = StudentCheckIn(id: int, createdAt: string)

  datatype CheckInsData = CheckInsData(checkIns: seq<StudentCheckIn>)

  datatype CheckInsResponse = CheckInsResponse(success: bool, data: CheckInsData)

  /** Body of POST /api/reviews. */
  datatype ReviewRequest = ReviewRequest(studentId: string, mobileAppName: string, reviewText: string)

  datatype ReviewData = ReviewData(
    reviewId: int,
    studentId: string,
    studentName: string,
    mobileAppName: string,
    reviewText: string,
    submittedAt: string)

  datatype ReviewResponse = ReviewResponse(success: bool, data: ReviewData, message: string)

  datatype StudentInfo = StudentInfo(fullName: string)

  datatype StudentReview = StudentReview(
    id: int,
    studentId: string,
    mobileAppName: string,
    reviewText: string,
    createdAt: string,
    students: Option<StudentInfo>)

  datatype ShowingInfo = ShowingInfo(limit: int, offset: int, appNameFilter: Option<string>)

  datatype ReviewsData = ReviewsData(reviews: seq<StudentReview>, totalReviews: int, showing: ShowingInfo)

  datatype ReviewsResponse = ReviewsResponse(success: bool, data: ReviewsData)

  datatype StudentReviewsData = StudentReviewsData(reviews: seq<StudentReview>, totalReviews: int, showing: ShowingInfo)

  datatype StudentReviewsResponse = StudentReviewsResponse(success: bool, data: StudentReviewsData)

  /** Body of POST /api/auto/check-in. */
  datatype CheckInRequest = CheckInRequest(studentId: string, fullName: string)

  datatype CheckInData = CheckInData(
    checkInId: int,
    studentId: string,
    studentName: string,
    checkedInAt: string,
    isNewStudent: bool)

  /** The only envelope whose `data` is optional. */
  datatype CheckInResponse = CheckInResponse(success: bool, message: string, data: Option<CheckInData>)

  datatype LeaderboardEntry = LeaderboardEntry(
    studentId: string,
    fullName: string,
    totalMarks: int,
    totalCheckIns: int,
    latestCheckIn: Option<string>,
    rank: int)
  {
    /** The `Identifiable` identity of an entry is its student id. */
    function Id(): string {
      studentId
    }
  }

  datatype LeaderboardPagination = LeaderboardPagination(
    limit: int,
    offset: int,
    totalPages: Option<int>,
    currentPage: Option<int>)

  datatype LeaderboardData = LeaderboardData(
    leaderboard: seq<LeaderboardEntry>,
    totalStudents: int,
    showing: LeaderboardPagination)

  datatype LeaderboardResponse = LeaderboardResponse(success: bool, data: LeaderboardData)
}
