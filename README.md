# LMS server: course threads, error normalisation and user schema in Dafny

This project models three small parts of a learning-management-system REST
server written in TypeScript and JavaScript on Express and Mongoose, and proves
properties of them.

- **Course discussion and review threads** (`controllers/course.controller.ts`).
  A course is an in-memory document, the class `Course.CourseDocument`. It holds
  its `courseData` contents, each with `questions`, each with
  `questionReplies`. It also holds its `reviews`, each with optional
  `commentReplies`, and the mean `ratings`. The handlers `addQuestion`,
  `addAnswer`, `addReview` and `addReplyToReview` are methods that look things
  up by id, fail with the controller's exact status and message, or update the
  document in place. Each one returns the side effects it performs, in order:
  saving, creating a notification, or sending an e-mail. `getCourseByUser` is
  modelled as the enrolment check, and `updateCourse` as its thumbnail
  decision. `searchCourse` is modelled as its pure part: `parseInt` with its
  defaults, skip and page-count arithmetic, and the whitespace-to-`\s*` pattern
  rewrite.
- **Error normalisation** (`middleware/error.ts`). The middleware changes the
  incoming error object in place. Its status defaults to 500 and its message to
  "Internal server error". It is then replaced by a fresh 400 error when it is a
  `CastError`, a duplicate key (code 11000), a `JwtTokenError` or a
  `TokenExpiredError`. The middleware answers `{ success: false, message }` and
  forwards the final error to `next`. `utils/ErrorHandler` is not part of this
  model. It is taken to build a plain `Error`, named "Error", with no `code` and
  with the given status. So a replacement can never match a later rule, and the
  first matching rule wins.
- **User schema** (`models/user.model.js`). This covers the e-mail validator
  `/^[^\s@]+@[^\s@]+\.[^\s@]+$/`, the required `name` and `email`, the
  six-character password minimum, and the `role`/`isVerified` defaults. It also
  covers the pre-save hook, which hashes the password only when it was modified.

External collaborators are parameters:
- the database lookup is a document, or `null` when no course has the id;
- `ObjectId.isValid` is a function parameter `isValidId`;
- bcrypt is a function parameter `hash`;
- timestamps are a string parameter `now`;
- generated subdocument ids are a parameter `newId`.

The repository's 12-month analytics bucketing lives in
`utils/analytics.generator`, which is not part of this model.

Modules: `Wrappers` (Option, Result), `Strings` (JavaScript's `\s` class,
`split`, `join`), `ErrorMiddleware`, `Course` (document types, `find`, rating
sums), `CourseController`, `CourseSearch` and `UserModel`.

## Model

| member | source | states |
|---|---|---|
| `Strings.Split` | controllers/course.controller.ts:518 | `split` with a one-character separator yields one more piece than there are separators, so always at least one piece |
| `Strings.JoinSplit` | controllers/course.controller.ts:518 | joining the pieces of `s.split(c)` with `c` gives back `s` |
| `Strings.SplitWithoutSeparator` | controllers/course.controller.ts:518 | a string without the separator splits into exactly itself |
| `Strings.Join` | middleware/error.ts:21 | joining one part gives that part, and joining none gives "" |
| `ErrorMiddleware.ErrorObject.Handler` | middleware/error.ts:16 | `new ErrorHandler(message, status)` is an error named "Error" with no code, carrying exactly that status and message |
| `ErrorMiddleware.DuplicateMessage` | middleware/error.ts:21 | a duplicate key on a single field `k` reads "Duplicate k entered" |
| `ErrorMiddleware.Handle` | middleware/error.ts:4-43 | the incoming error is defaulted in place (a falsy status becomes 500, an empty message becomes "Internal server error"); CastError gives 400 "Resource not found. Invalid: <path>", code 11000 gives 400 "Duplicate <keys> entered", and JwtTokenError and TokenExpiredError give 400 with their fixed messages; the first matching rule wins; with no match the defaulted error itself is kept; the response is always `success: false` with the final error's status and message, and that error is what `next` receives |
| `ErrorMiddleware.DuplicateEmailExample` | middleware/error.ts:20-23 | a database error with code 11000 on `email` and no status is answered 400 "Duplicate email entered" |
| `Course.FindFirst` | controllers/course.controller.ts:195-197 | `find` returns the first matching element's position, or nothing exactly when no element matches |
| `Course.SumRatingsBounds` | controllers/course.controller.ts:337-341 | the sum of n ratings that all lie in [lo, hi] lies in [n·lo, n·hi] |
| `Course.MeanRatingBounds` | controllers/course.controller.ts:337-345 | the mean rating stays within the range of the individual ratings |
| `CourseController.IsEnrolled` | controllers/course.controller.ts:319-321 | enrolled exactly when some course in the user's list has the requested id |
| `CourseController.GetCourseByUser` | controllers/course.controller.ts:157-173 | access succeeds exactly when the user is enrolled; otherwise it fails with 404 "You are not eligible to access this course."; on success it returns the course's contents, or none when the course is missing |
| `CourseController.AddQuestion` | controllers/course.controller.ts:190-220 | a malformed or unknown content id, or a missing course, fails with 400 "Invalid content id" and changes nothing; otherwise exactly one question with no replies is appended to the end of the matched content's questions, every other content and every other field is unchanged, and the handler creates a notification and then saves |
| `CourseController.AddAnswer` | controllers/course.controller.ts:238-299 | content errors as for addQuestion; an unknown question fails with 400 "Invalid question id" and changes nothing; otherwise exactly one answer is appended to that question's replies and nothing else changes; the save comes first, then a notification when the replier asked the question, and otherwise an e-mail to the asker |
| `CourseController.AddReview` | controllers/course.controller.ts:316-358 | a user who is not enrolled gets 404 "You are not eligible to access this course" and the course is unchanged; otherwise the reviews grow by exactly the new review, `ratings` becomes the sum of all ratings divided by their number, and the course is saved before the notification is created |
| `CourseController.AddReplyToReview` | controllers/course.controller.ts:375-437 | a missing course fails with 404 "Course not found" and an unknown review with 404 "Review not found", both changing nothing; otherwise the reply list is created empty when absent, exactly one reply is appended to it, and nothing else changes; the save comes first, then a notification or an e-mail as in addAnswer |
| `CourseController.ThumbnailPlanAsWritten` | controllers/course.controller.ts:43-66 | a body without a thumbnail crashes; an https URL stores the course's current ids again; any other non-empty value replaces the stored image, or crashes when the course is missing |
| `CourseController.UpdateWithoutThumbnailCrashes` | controllers/course.controller.ts:61 | an update of an existing course whose body has no thumbnail ends in a TypeError |
| `CourseController.ThumbnailPlanFor` | controllers/course.controller.ts:48-66 | corrected: an absent thumbnail leaves the field alone, an update of an existing course never crashes, and every sent thumbnail is treated as written |
| `CourseSearch.ParseDigits` | controllers/course.controller.ts:509 | `parseInt` finds no number exactly when no digit follows the sign |
| `CourseSearch.ParseIntDecimal` | controllers/course.controller.ts:509-510 | `parseInt` reads back every integer that `String` prints |
| `CourseSearch.ParseIntSkipsLeadingSpace` | controllers/course.controller.ts:509 | leading whitespace does not change what `parseInt` reads |
| `CourseSearch.ParseIntStopsAtNonDigit` | controllers/course.controller.ts:509 | `parseInt` stops at the first non-digit after the number |
| `CourseSearch.CeilDiv` | controllers/course.controller.ts:534 | `Math.ceil(a / b)` is the least integer not below the quotient, for either sign of `b` |
| `CourseSearch.NumberOr` | controllers/course.controller.ts:509-510 | the page or limit read from the query falls back to its default when `parseInt` gives NaN or 0, and is the parsed value otherwise |
| `CourseSearch.Paginate` | controllers/course.controller.ts:509-511 | page and limit are exactly `parseInt(page) || 1` and `parseInt(limit) || 10`, so never 0; a missing page is 1 and a missing limit is 10; skip = (page-1)·limit; for a positive limit, totalPages is the least number of pages that holds all courses |
| `CourseSearch.PageOfCourse` | controllers/course.controller.ts:528-534 | for a positive limit, every course of the result lies on exactly one page, numbered between 1 and totalPages |
| `CourseSearch.RequestedPage` | controllers/course.controller.ts:509-511 | a positive page and limit given as numbers are served as given, skipping (page-1)·limit courses |
| `CourseSearch.DefaultPage` | controllers/course.controller.ts:509-511 | every page query that `parseInt` reads as NaN or 0 (missing, "0", non-numeric) serves page 1 with no skip, and every such limit query serves 10 courses |
| `CourseSearch.SpacePattern` | controllers/course.controller.ts:518 | the rewritten title contains no whitespace, and a title without whitespace is kept as it is |
| `CourseSearch.SpacePatternAppend` | controllers/course.controller.ts:518 | the rewrite works character by character: each whitespace becomes `\s*` and other characters keep their order |
| `CourseSearch.SearchPatternIsSpacePattern` | controllers/course.controller.ts:512-518 | the following `split(" ").join("\\s*")` leaves the rewritten title unchanged, and a missing title gives the empty pattern |
| `UserModel.EmailValidatorMatchesPattern` | models/user.model.js:10 | the validator accepts a string exactly when it is a non-empty plain run, `@`, a non-empty plain run, `.`, and a non-empty plain run, where plain means neither whitespace nor `@` |
| `UserModel.ValidEmailHasNoSpace` | models/user.model.js:20-22 | an accepted address contains no whitespace |
| `UserModel.ValidEmailHasOneAt` | models/user.model.js:10 | an accepted address has exactly one `@`, and it is not the first character |
| `UserModel.CreateUser` | models/user.model.js:11-43 | a user is created exactly when the name and e-mail are given, the e-mail is valid, and any given password has at least 6 characters; `role` defaults to "user" and `isVerified` to false; a failure carries at least one error |
| `UserModel.ShortPasswordRejected` | models/user.model.js:29 | a password shorter than 6 characters is rejected with "Password must be at least 6 characters" |
| `UserModel.MalformedEmailRejected` | models/user.model.js:19-24 | a given e-mail that does not match the pattern is rejected with "Please enter a valid email", not with the required message |
| `UserModel.RequiredFields` | models/user.model.js:12-18 | a missing name or e-mail is rejected with that field's "Please enter your …" message |
| `UserModel.NewUserDefaults` | models/user.model.js:36-43 | a new user who gives only a name and a valid e-mail has role "user" and is not verified |
| `UserModel.UserDocument.PreSave` | models/user.model.js:51-57 | an unmodified password is left untouched; a modified one is replaced by its hash with cost 10 |
| `UserModel.UserDocument.PasswordValidation` | models/user.model.js:27-31 | a modified password shorter than 6 characters fails validation with the `minLength` message; an absent or unmodified password passes |
| `UserModel.UserDocument.Save` | models/user.model.js:27-57 | a save fails exactly when the password is modified and either shorter than 6 characters (validation, before the hook) or absent (the hash call); a failed save leaves the document as it was; otherwise a modified password is stored hashed with cost 10, an unmodified one is untouched, and the document is marked unmodified |
| `UserModel.SaveTwice` | models/user.model.js:51-57 | saving a new password of at least 6 characters twice stores it hashed exactly once; a shorter one fails validation and is never hashed |

## Findings

| source | as written | input that shows it | evidently intended | confidence | as-written member | corrected member |
|---|---|---|---|---|---|---|
| controllers/course.controller.ts:61 | `thumbnail.startsWith("https")` is called without the `thumbnail &&` guard that line 48 has | a course update whose body has no `thumbnail`, for example one that only changes the name | a body without a thumbnail updates the other fields and keeps the stored thumbnail | medium, not executed | `CourseController.UpdateWithoutThumbnailCrashes` | `CourseController.ThumbnailPlanFor` |

## Left out

- Mongoose, Redis, Cloudinary, the notification model, `ejs.renderFile`, `sendMail` and the VdoCipher call are left out. The model records which save, notification or e-mail a handler performs, but does not perform it. A failure of any of them is not modelled. This includes the 500 that a failed `sendMail` produces.
- `findById` is a parameter: a document, or null. The CastError it throws for a malformed course id (answered with 500) is not modelled.
- `ObjectId.equals` is modelled as equality of id strings. The bson library also accepts the upper-case hex spelling of an id.
- `req.user` is always present, because the routes put authentication first. `userCourseList.some` on a missing user would throw.
- The course schema (`models/course.model`) is not part of this model. A new review is stored as the controller builds it, without `commentReplies`. A schema default for that array would add an empty list.
- `AddReview`: ratings are reals, so floating-point rounding of the mean is not modelled. The request's `rating` is taken to be a number.
- `Handle`: the `keyValue` of a duplicate-key error is always present. `Object.keys` on a missing `keyValue` would throw inside the middleware. All falsy status codes are written as 0, and an absent message as "".
- searchCourse: `decodeURIComponent` is left out, along with its URIError on malformed input. So are the construction of the case-insensitive `RegExp`, which fails on metacharacters such as "C++", and repeated query parameters. The title is taken already decoded.
- `ParseInt`: integers are unbounded. The precision loss of `parseInt` beyond 2^53 is not modelled, and neither is what the database does with a negative skip or limit.
- getAllCourses' paging is left out. It uses the unparsed `limit`, and JavaScript's coercion of that value is not modelled.
- uploadCourse, getSingleCourse, getAllCourseAdmin, deleteCourse and generateVideoUrl are left out. Each is a pass-through to the database, cache or network, with no logic of its own.
- updateCourse beyond its thumbnail decision is left out: the upload and destroy calls and the `$set` update.
- `CreateUser`: the password length is counted in Unicode scalar values. JavaScript counts UTF-16 code units, which differ for characters outside the Basic Multilingual Plane.
- `comparePassword`, `signAccessToken` and `signRefreshToken` are left out. They are calls into bcrypt and JWT. Also left out: e-mail uniqueness (a database index), `select: false`, timestamps, and the `avatar` and `courses` fields.
- `UserDocument.Save`: this models Mongoose clearing the modified paths after a successful write. That is library behaviour, not code from the repository.
- `UserDocument.Save`: the schema validation that Mongoose runs before the pre-save hook is modelled for the password path only. The name and e-mail rules are modelled by `CreateUser`. The error's wrapper text ("User validation failed: …") is not modelled.
- addAnswer and addReplyToReview: the source calls `new Date()` twice, for `createdAt` and for `updatedAt`. The model gives both one parameter `now`, so it does not capture the two differing by a millisecond.
