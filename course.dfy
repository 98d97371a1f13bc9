/**
 * A course document as the course controller reads and updates it: its
 * contents, each with a question-and-answer thread, and its reviews, each
 * with optional replies, plus the mean rating.
 */
module Course {
  import opened Wrappers

  /** The requesting user, as the session attaches it to a request and as threads embed it. */
  datatype User = User(id: string, name: string, email: string, courses: seq<string>)

  /** A reply in a question's thread. */
  datatype Answer = Answer(user: User, answer: string, createdAt: string, updatedAt: string)

  datatype Question = Question(id: string, user: User, question: string, questionReplies: seq<Answer>)

  /** One item of `courseData`; its other fields (video, links, suggestion) are not touched here. */
  datatype Content = Content(id: string, title: string, questions: seq<Question>)

  /** A reply to a review. */
  datatype CommentReply = CommentReply(user: User, comment: string, createdAt: string, updatedAt: string)

  /** A review; `commentReplies` may be missing on a stored review. */
  datatype Review = Review(id: string, user: User, comment: string, rating: real,
                           commentReplies: Option<seq<CommentReply>>)

  /** The course document, updated in place by the handlers and then saved. */
  class CourseDocument {
    const id: string
    var name: string
    var courseData: seq<Content>
    var reviews: seq<Review>
    var ratings: real

    constructor (id: string, name: string, courseData: seq<Content>, reviews: seq<Review>, ratings: real)
      ensures this.id == id && this.name == name && this.courseData == courseData
      ensures this.reviews == reviews && this.ratings == ratings
    {
      this.id := id;
      this.name := name;
      this.courseData := courseData;
      this.reviews := reviews;
      this.ratings := ratings;
    }
  }

  /** `s.find(matches)`, as the position of the first element that matches. */
  function FindFirst<T>(s: seq<T>, matches: T -> bool): (r: Option<nat>)
    ensures r.Some? ==> r.value < |s| && matches(s[r.value])
    ensures r.Some? ==> forall j :: 0 <= j < r.value ==> !matches(s[j])
    ensures r.None? <==> forall j :: 0 <= j < |s| ==> !matches(s[j])
  {
    if |s| == 0 then None
    else if matches(s[0]) then Some(0)
    else
      match FindFirst(s[1..], matches)
      case None => None
      case Some(i) => Some(i + 1)
  }

  /** `courseData.find(item => item._id.equals(id))` */
  function ContentIndex(data: seq<Content>, id: string): Option<nat>
  {
    FindFirst(data, (c: Content) => c.id == id)
  }

  /** `questions.find(item => item._id.equals(id))` */
  function QuestionIndex(questions: seq<Question>, id: string): Option<nat>
  {
    FindFirst(questions, (q: Question) => q.id == id)
  }

  /** `reviews.find(review => review._id.toString() === id)` */
  function ReviewIndex(reviews: seq<Review>, id: string): Option<nat>
  {
    FindFirst(reviews, (r: Review) => r.id == id)
  }

  /** Sum of the ratings of `reviews`, added front to back as the source's loop does. */
  function SumRatings(reviews: seq<Review>): real
  {
    if |reviews| == 0 then 0.0 else SumRatings(reviews[..|reviews| - 1]) + reviews[|reviews| - 1].rating
  }

  /** The mean rating of a non-empty list of reviews. */
  function MeanRating(reviews: seq<Review>): real
    requires |reviews| > 0
  {
    SumRatings(reviews) / |reviews| as real
  }

  /** Every rating lies in [lo, hi]. */
  predicate RatingsWithin(reviews: seq<Review>, lo: real, hi: real)
  {
    forall i :: 0 <= i < |reviews| ==> lo <= reviews[i].rating <= hi
  }

  /** The sum of n ratings in [lo, hi] lies in [n * lo, n * hi]. */
  lemma {:induction false} SumRatingsBounds(reviews: seq<Review>, lo: real, hi: real)
    requires RatingsWithin(reviews, lo, hi)
    ensures |reviews| as real * lo <= SumRatings(reviews) <= |reviews| as real * hi
  {
    if |reviews| > 0 {
      var init := reviews[..|reviews| - 1];
      assert RatingsWithin(init, lo, hi) by {
        forall i | 0 <= i < |init| ensures lo <= init[i].rating <= hi {
          assert init[i] == reviews[i];
        }
      }
      SumRatingsBounds(init, lo, hi);
    }
  }

  /** The mean of ratings that all lie in [lo, hi] lies in [lo, hi] too. */
  lemma MeanRatingBounds(reviews: seq<Review>, lo: real, hi: real)
    requires |reviews| > 0 && RatingsWithin(reviews, lo, hi)
    ensures lo <= MeanRating(reviews) <= hi
  {
    SumRatingsBounds(reviews, lo, hi);
    var n := |reviews| as real;
    assert n * lo <= SumRatings(reviews) <= n * hi;
    assert SumRatings(reviews) / n >= lo by {
      assert (n * lo) / n == lo;
    }
    assert SumRatings(reviews) / n <= hi by {
      assert (n * hi) / n == hi;
    }
  }
}
