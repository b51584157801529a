/**
 * The backend records the view models work on, with the field names the
 * view models use. Fields that no modelled rule reads (descriptions,
 * icon URLs, coordinates, ...) are omitted.
 */
module Models {
  import opened Wrappers

  /** A catalogue badge: unlocked once the user's points reach `pointsRequired`. */
  datatype Badge = Badge(id: int, name: string, pointsRequired: int)

  /** The sort key of `sortedBy { it.pointsRequired }`. */
  function PointsRequired(b: Badge): int
  {
    b.pointsRequired
  }

  /** The user's profile as the backend returns it; `badges` may be absent in the JSON. */
  datatype UserProfile = UserProfile(id: int, username: string, points: int, badges: Option<seq<Badge>>)

  /** A challenge of the catalogue; `points` is the reward for completing it. */
  datatype Challenge = Challenge(id: int, title: string, points: int, isCompleted: bool)

  /** The sort key of `sortedBy { it.points }`. */
  function ChallengePoints(c: Challenge): int
  {
    c.points
  }

  /** One participant record of a challenge, as returned by the participants endpoint. */
  datatype ChallengeParticipation = ChallengeParticipation(username: string, completed: bool)

  /** An object the image labeller may recognise. */
  datatype RecognizedObject = RecognizedObject(id: int, name: string, recyclable: bool, category: string)

  /** A product found by barcode. */
  datatype Product = Product(id: int, name: string, barcode: string, sustainabilityScore: int, ecoFriendly: bool)

  /** A post of a group feed; author and timestamps may be missing in the server's reply. */
  datatype Post = Post(
    id: int,
    title: string,
    content: string,
    groupId: int,
    authorUsername: Option<string>,
    createdAt: Option<string>,
    updatedAt: Option<string>)

  /**
   * The outcome of one REST call as the view models see it: a successful
   * response whose body may be null, an unsuccessful one with its HTTP
   * message, an `IOException` or any other exception, with its message.
   */
  datatype Response<T> =
    | Success(body: Option<T>)
    | HttpError(message: string)
    | NetworkError(message: string)
    | UnexpectedError(message: string)
}
