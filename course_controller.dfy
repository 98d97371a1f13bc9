/**
 * The course controller's handlers for enrolled access, questions, answers,
 * reviews and review replies, and the thumbnail decision of a course update.
 * The database lookup `CourseModel.findById` is a parameter (the document,
 * or null when no course has that id); saving, notifications and e-mails are
 * returned as the list of effects the handler performs, in order.
 */
module CourseController {
  import opened Wrappers
  import opened Course

  /** A side effect a handler performs after updating the document. */
  datatype Effect =
    | Save
    | Notify(userId: string, title: string, message: string)
    | Email(to: string, subject: string, template: string, name: string, title: string)

  /** The handler's end: a 200 answer after its effects, or an error passed to `next`. */
  datatype Outcome = Done(effects: seq<Effect>) | Fail(status: int, message: string)

  const NotEligible := "You are not eligible to access this course."
  const NotEligibleForReview := "You are not eligible to access this course"
  const InvalidContentId := "Invalid content id"
  const InvalidQuestionId := "Invalid question id"
  const CourseNotFound := "Course not found"
  const ReviewNotFound := "Review not found"

  /** The user bought the course: some course in the user's list has this id. */
  function IsEnrolled(user: User, courseId: string): (b: bool)
    ensures b <==> exists i :: 0 <= i < |user.courses| && user.courses[i] == courseId
  {
    FindFirst(user.courses, (c: string) => c == courseId).Some?
  }

  /**
   * getCourseByUser: an enrolled user receives the course's contents (none when
   * the course does not exist); anyone else gets a 404.
   */
  function GetCourseByUser(user: User, courseId: string, course: CourseDocument?): (r: Result<Option<seq<Content>>, (int, string)>)
    reads course
    ensures r.Success? <==> exists i :: 0 <= i < |user.courses| && user.courses[i] == courseId
    ensures r.Failure? ==> r.error == (404, NotEligible)
    ensures r.Success? ==> r.value == (if course == null then None else Some(course.courseData))
  {
    if !IsEnrolled(user, courseId) then Failure((404, NotEligible))
    else if course == null then Success(None)
    else Success(Some(course.courseData))
  }

  /**
   * addQuestion: append a question with no replies to the content `contentId`,
   * create a notification, then save. A malformed or unknown content id, or a
   * missing course, is a 400 and changes nothing.
   */
  method AddQuestion(course: CourseDocument?, user: User, question: string, contentId: string,
                     isValidId: string -> bool, newId: string) returns (out: Outcome)
    modifies course
    ensures course == null ==> out == Fail(400, InvalidContentId)
    ensures course != null ==>
      course.name == old(course.name) && course.reviews == old(course.reviews) && course.ratings == old(course.ratings)
    ensures course != null && (!isValidId(contentId) || ContentIndex(old(course.courseData), contentId).None?) ==>
      out == Fail(400, InvalidContentId) && course.courseData == old(course.courseData)
    ensures course != null && isValidId(contentId) && ContentIndex(old(course.courseData), contentId).Some? ==>
      var k := ContentIndex(old(course.courseData), contentId).value;
      var c := old(course.courseData)[k];
      && out == Done([Notify(user.id, "New Question Received!", "You have a new question in " + c.title), Save])
      && |course.courseData| == |old(course.courseData)|
      && course.courseData[k] == c.(questions := c.questions + [Question(newId, user, question, [])])
      && (forall j :: 0 <= j < |course.courseData| && j != k ==> course.courseData[j] == old(course.courseData)[j])
  {
    if !isValidId(contentId) {
      return Fail(400, InvalidContentId);
    }
    if course == null {
      return Fail(400, InvalidContentId);
    }
    var k := ContentIndex(course.courseData, contentId);
    if k.None? {
      return Fail(400, InvalidContentId);
    }
    var content := course.courseData[k.value];
    var newQuestion := Question(newId, user, question, []);
    course.courseData := course.courseData[k.value := content.(questions := content.questions + [newQuestion])];
    out := Done([Notify(user.id, "New Question Received!", "You have a new question in " + content.title), Save]);
  }

  /**
   * addAnswer: append an answer to question `questionId` of content
   * `contentId` and save; then notify the replier when the replier asked the
   * question, and e-mail the asker otherwise.
   */
  method AddAnswer(course: CourseDocument?, user: User, answer: string, contentId: string, questionId: string,
                   isValidId: string -> bool, now: string) returns (out: Outcome)
    modifies course
    ensures course == null ==> out == Fail(400, InvalidContentId)
    ensures course != null ==>
      course.name == old(course.name) && course.reviews == old(course.reviews) && course.ratings == old(course.ratings)
    ensures course != null && (!isValidId(contentId) || ContentIndex(old(course.courseData), contentId).None?) ==>
      out == Fail(400, InvalidContentId) && course.courseData == old(course.courseData)
    ensures course != null && isValidId(contentId) && ContentIndex(old(course.courseData), contentId).Some? ==>
      var k := ContentIndex(old(course.courseData), contentId).value;
      var c := old(course.courseData)[k];
      if QuestionIndex(c.questions, questionId).None? then
        out == Fail(400, InvalidQuestionId) && course.courseData == old(course.courseData)
      else
        var qk := QuestionIndex(c.questions, questionId).value;
        var q := c.questions[qk];
        && |course.courseData| == |old(course.courseData)|
        && (forall j :: 0 <= j < |course.courseData| && j != k ==> course.courseData[j] == old(course.courseData)[j])
        && course.courseData[k].id == c.id && course.courseData[k].title == c.title
        && |course.courseData[k].questions| == |c.questions|
        && (forall j :: 0 <= j < |c.questions| && j != qk ==> course.courseData[k].questions[j] == c.questions[j])
        && course.courseData[k].questions[qk] == q.(questionReplies := q.questionReplies + [Answer(user, answer, now, now)])
        && out.Done? && |out.effects| == 2 && out.effects[0] == Save
        && out.effects[1] == (if user.id == q.user.id
                              then Notify(user.id, "New Question Reply Received!", "You have a new reply in " + c.title)
                              else Email(q.user.email, "Question reply", "question_reply.ejs", q.user.name, c.title))
  {
    if !isValidId(contentId) {
      return Fail(400, InvalidContentId);
    }
    if course == null {
      return Fail(400, InvalidContentId);
    }
    var k := ContentIndex(course.courseData, contentId);
    if k.None? {
      return Fail(400, InvalidContentId);
    }
    var content := course.courseData[k.value];
    var qk := QuestionIndex(content.questions, questionId);
    if qk.None? {
      return Fail(400, InvalidQuestionId);
    }
    var q := content.questions[qk.value];
    var newAnswer := Answer(user, answer, now, now);
    var questions := content.questions[qk.value := q.(questionReplies := q.questionReplies + [newAnswer])];
    course.courseData := course.courseData[k.value := content.(questions := questions)];
    var followUp;
    if user.id == q.user.id {
      followUp := Notify(user.id, "New Question Reply Received!", "You have a new reply in " + content.title);
    } else {
      followUp := Email(q.user.email, "Question reply", "question_reply.ejs", q.user.name, content.title);
    }
    out := Done([Save, followUp]);
  }

  /**
   * addReview: an enrolled user's review is appended, the course's rating
   * becomes the mean of all ratings, the course is saved and a notification
   * created. A user who did not buy the course gets a 404 and nothing changes.
   */
  method AddReview(course: CourseDocument?, user: User, courseId: string, review: string, rating: real,
                   newId: string) returns (out: Outcome)
    modifies course
    ensures !IsEnrolled(user, courseId) ==>
      out == Fail(404, NotEligibleForReview) && (course != null ==> unchanged(course))
    ensures IsEnrolled(user, courseId) && course == null ==>
      out == Done([Notify(user.id, "New review received", user.name + " has given a review in undefined")])
    ensures IsEnrolled(user, courseId) && course != null ==>
      && course.reviews == old(course.reviews) + [Review(newId, user, review, rating, None)]
      && course.ratings == MeanRating(course.reviews)
      && course.name == old(course.name) && course.courseData == old(course.courseData)
      && out == Done([Save, Notify(user.id, "New review received", user.name + " has given a review in " + course.name)])
  {
    if !IsEnrolled(user, courseId) {
      return Fail(404, NotEligibleForReview);
    }
    if course == null {
      return Done([Notify(user.id, "New review received", user.name + " has given a review in undefined")]);
    }
    course.reviews := course.reviews + [Review(newId, user, review, rating, None)];
    var avg := 0.0;
    var i := 0;
    while i < |course.reviews|
      invariant 0 <= i <= |course.reviews|
      invariant avg == SumRatings(course.reviews[..i])
    {
      assert course.reviews[..i + 1][..i] == course.reviews[..i];
      avg := avg + course.reviews[i].rating;
      i := i + 1;
    }
    assert course.reviews[..i] == course.reviews;
    course.ratings := avg / |course.reviews| as real;
    out := Done([Save, Notify(user.id, "New review received", user.name + " has given a review in " + course.name)]);
  }

  /**
   * addReplyToReview: append a reply to review `reviewId`, creating the reply
   * list when the review has none, and save; then notify the replier when the
   * replier wrote the review, and e-mail the reviewer otherwise.
   */
  method AddReplyToReview(course: CourseDocument?, user: User, comment: string, reviewId: string,
                          now: string) returns (out: Outcome)
    modifies course
    ensures course == null ==> out == Fail(404, CourseNotFound)
    ensures course != null ==>
      course.name == old(course.name) && course.courseData == old(course.courseData) && course.ratings == old(course.ratings)
    ensures course != null && ReviewIndex(old(course.reviews), reviewId).None? ==>
      out == Fail(404, ReviewNotFound) && course.reviews == old(course.reviews)
    ensures course != null && ReviewIndex(old(course.reviews), reviewId).Some? ==>
      var k := ReviewIndex(old(course.reviews), reviewId).value;
      var r := old(course.reviews)[k];
      && |course.reviews| == |old(course.reviews)|
      && (forall j :: 0 <= j < |course.reviews| && j != k ==> course.reviews[j] == old(course.reviews)[j])
      && course.reviews[k] == r.(commentReplies := Some(r.commentReplies.GetOr([]) + [CommentReply(user, comment, now, now)]))
      && out == Done([Save, if user.id == r.user.id
                            then Notify(user.id, "New Review Reply Received!", "You have a new review reply in " + course.name)
                            else Email(r.user.email, "Review reply", "review_reply.ejs", r.user.name, course.name)])
  {
    if course == null {
      return Fail(404, CourseNotFound);
    }
    var k := ReviewIndex(course.reviews, reviewId);
    if k.None? {
      return Fail(404, ReviewNotFound);
    }
    var r := course.reviews[k.value];
    var replies := if r.commentReplies.None? then [] else r.commentReplies.value;
    replies := replies + [CommentReply(user, comment, now, now)];
    course.reviews := course.reviews[k.value := r.(commentReplies := Some(replies))];
    var followUp;
    if user.id == r.user.id {
      followUp := Notify(user.id, "New Review Reply Received!", "You have a new review reply in " + course.name);
    } else {
      followUp := Email(r.user.email, "Review reply", "review_reply.ejs", r.user.name, course.name);
    }
    out := Done([Save, followUp]);
  }

  /** A stored thumbnail: the media host's id and its public URL. */
  datatype Thumbnail = Thumbnail(publicId: string, url: string)

  /** What updateCourse does with the `thumbnail` field of the request body. */
  datatype ThumbnailPlan =
    | Replace(destroy: string, upload: string)  // destroy the stored image, upload the new one, store its ids
    | KeepStored(stored: Option<Thumbnail>)     // a URL already hosted: store the course's current ids again
    | SetAsSent(value: string)                  // an empty string is written as it is
    | Omit                                      // no thumbnail in the body: the field is not updated
    | Crash                                     // a TypeError, answered as a 500

  function StartsWithHttps(s: string): bool
  {
    |s| >= 5 && s[..5] == "https"
  }

  /**
   * The thumbnail branch of updateCourse as written. `sent` is the body's
   * thumbnail (None when absent); `stored` is the course's current thumbnail
   * (None when no course has the id). The second test calls `startsWith` on
   * the body's value without the guard the first test has.
   */
  function ThumbnailPlanAsWritten(sent: Option<string>, stored: Option<Thumbnail>): (p: ThumbnailPlan)
    ensures sent.None? ==> p == Crash
    ensures sent.Some? && StartsWithHttps(sent.value) ==> p == KeepStored(stored)
    ensures sent.Some? && sent.value != "" && !StartsWithHttps(sent.value) ==>
      p == (if stored.None? then Crash else Replace(stored.value.publicId, sent.value))
    ensures p != Omit
  {
    match sent
    case None => Crash
    case Some(t) =>
      if t != "" && !StartsWithHttps(t) then
        (if stored.None? then Crash else Replace(stored.value.publicId, t))
      else if StartsWithHttps(t) then KeepStored(stored)
      else SetAsSent(t)
  }

  /** An update without a thumbnail fails with a TypeError as written. */
  lemma UpdateWithoutThumbnailCrashes(stored: Thumbnail)
    ensures ThumbnailPlanAsWritten(None, Some(stored)) == Crash
  {
  }

  /** The thumbnail branch as evidently intended: an absent thumbnail leaves the field alone. */
  function ThumbnailPlanFor(sent: Option<string>, stored: Option<Thumbnail>): (p: ThumbnailPlan)
    ensures sent.None? <==> p == Omit
    ensures sent.Some? ==> p == ThumbnailPlanAsWritten(sent, stored)
    ensures stored.Some? ==> p != Crash
  {
    if sent.None? then Omit else ThumbnailPlanAsWritten(sent, stored)
  }
}
