/**
 * The group feed's view model: loading a group's posts (filling in a
 * missing author and creation date) and creating a post, whose completed
 * copy is put at the head of the list before the feed is reloaded. Each
 * launched coroutine is split at its network call into the update before
 * it and the update after it; the reply is an input, and so is the
 * current date string.
 */
module Posts {
  import opened Wrappers
  import opened Models
  import opened Session

  const AnonymousAuthor: string := "Anonimo"
  const DefaultUser: string := "Utente"

  /** The `map` of `loadPosts`: a null author becomes "Anonimo", a null creation date `now`. */
  function NormalisePost(post: Post, now: string): (r: Post)
    ensures r.authorUsername.Some? && r.createdAt.Some?
    ensures r.authorUsername == (if post.authorUsername.None? then Some(AnonymousAuthor) else post.authorUsername)
    ensures r.createdAt == (if post.createdAt.None? then Some(now) else post.createdAt)
    ensures r.(authorUsername := post.authorUsername, createdAt := post.createdAt) == post
  {
    post.(authorUsername := Some(post.authorUsername.GetOr(AnonymousAuthor)),
          createdAt := Some(post.createdAt.GetOr(now)))
  }

  function NormalisePosts(posts: seq<Post>, now: string): (r: seq<Post>)
    ensures |r| == |posts|
    ensures forall i :: 0 <= i < |posts| ==> r[i] == NormalisePost(posts[i], now)
    decreases |posts|
  {
    if posts == [] then [] else [NormalisePost(posts[0], now)] + NormalisePosts(posts[1..], now)
  }

  /** Normalising an already normalised list changes nothing, whatever the date. */
  lemma NormaliseIdempotent(posts: seq<Post>, now: string, later: string)
    ensures NormalisePosts(NormalisePosts(posts, now), later) == NormalisePosts(posts, now)
  {
  }

  /** Posts that arrive complete are kept exactly, in the server's order. */
  lemma CompletePostsUntouched(posts: seq<Post>, now: string)
    requires forall i :: 0 <= i < |posts| ==> posts[i].authorUsername.Some? && posts[i].createdAt.Some?
    ensures NormalisePosts(posts, now) == posts
  {
  }

  /**
   * The completed copy of a created post: the stored username (or
   * "Utente") when the server's author is null or empty, and `now` for
   * each missing timestamp; every other field is the server's.
   */
  function CompletePost(created: Post, storedUsername: Option<string>, now: string): (r: Post)
    ensures created.authorUsername == None || created.authorUsername == Some("") ==>
      r.authorUsername == Some(storedUsername.GetOr(DefaultUser))
    ensures created.authorUsername.Some? && created.authorUsername.value != "" ==>
      r.authorUsername == created.authorUsername
    ensures r.createdAt == Some(created.createdAt.GetOr(now)) && r.updatedAt == Some(created.updatedAt.GetOr(now))
    ensures r.(authorUsername := created.authorUsername, createdAt := created.createdAt, updatedAt := created.updatedAt) == created
  {
    var currentUsername := storedUsername.GetOr(DefaultUser);
    created.(
      authorUsername := if created.authorUsername.None? || created.authorUsername.value == "" then Some(currentUsername)
                        else created.authorUsername,
      createdAt := Some(created.createdAt.GetOr(now)),
      updatedAt := Some(created.updatedAt.GetOr(now)))
  }

  /** Unless the stored username is itself empty, the completed post has a non-empty author. */
  lemma CompletedPostHasAuthor(created: Post, storedUsername: Option<string>, now: string)
    requires storedUsername != Some("")
    ensures var r := CompletePost(created, storedUsername, now);
      r.authorUsername.Some? && r.authorUsername.value != ""
  {
  }

  /** Completing a completed post again is a no-op when the author it got is non-empty. */
  lemma CompletePostIdempotent(created: Post, storedUsername: Option<string>, now: string, u: Option<string>, later: string)
    requires storedUsername != Some("")
    ensures CompletePost(CompletePost(created, storedUsername, now), u, later) == CompletePost(created, storedUsername, now)
  {
  }

  /** The two fill-in rules differ on an empty author: the feed keeps it, the created post replaces it. */
  lemma EmptyAuthorHandledDifferently(p: Post, storedUsername: Option<string>, now: string)
    requires p.authorUsername == Some("")
    ensures NormalisePost(p, now).authorUsername == Some("")
    ensures CompletePost(p, storedUsername, now).authorUsername == Some(storedUsername.GetOr(DefaultUser))
  {
  }

  /** What `createPost` reports through its callbacks. */
  datatype CreateOutcome =
    | Created(reloadGroupId: int)  // `onSuccess` after `loadPosts(groupId)` has been started
    | Failed(message: string)      // `onError(message)`

  /** `PostsUiState` (without the selected post of the detail screen). */
  class PostViewModel {
    var posts: seq<Post>
    var currentGroupId: Option<int>
    var isLoading: bool
    var error: Option<string>
    const tokenManager: TokenManager

    /** The default state; `tokenManager` is the session store's global instance. */
    constructor (tokenManager: TokenManager)
      ensures posts == [] && currentGroupId == None && !isLoading && error == None
      ensures this.tokenManager == tokenManager
    {
      posts := [];
      currentGroupId := None;
      isLoading := false;
      error := None;
      this.tokenManager := tokenManager;
    }

    /** The start of `loadPosts`: the group is remembered, the error cleared, loading shown. */
    method BeginLoadPosts(groupId: Option<int>)
      modifies this
      ensures currentGroupId == groupId && isLoading && error == None && posts == old(posts)
    {
      isLoading, error, currentGroupId := true, None, groupId;
    }

    /**
     * The end of `loadPosts`: a successful reply replaces the list by its
     * posts, normalised and in order (a null body gives the empty list);
     * a failure keeps the list and sets the matching error.
     */
    method ReceivePosts(response: Response<seq<Post>>, now: string)
      modifies this
      ensures !isLoading && currentGroupId == old(currentGroupId)
      ensures response.Success? ==> posts == NormalisePosts(response.body.GetOr([]), now) && error == old(error)
      ensures !response.Success? ==> posts == old(posts)
      ensures response.HttpError? ==> error == Some("Errore nel caricamento dei post: " + response.message)
      ensures response.NetworkError? ==> error == Some("Errore di rete nel caricamento dei post: " + response.message)
      ensures response.UnexpectedError? ==> error == Some("Errore imprevisto nel caricamento dei post: " + response.message)
    {
      match response {
        case Success(body) =>
          posts, isLoading := NormalisePosts(body.GetOr([]), now), false;
        case HttpError(message) =>
          error, isLoading := Some("Errore nel caricamento dei post: " + message), false;
        case NetworkError(message) =>
          error, isLoading := Some("Errore di rete nel caricamento dei post: " + message), false;
        case UnexpectedError(message) =>
          error, isLoading := Some("Errore imprevisto nel caricamento dei post: " + message), false;
      }
    }

    /** The start of `createPost`. */
    method BeginCreatePost()
      modifies this
      ensures isLoading && error == None && posts == old(posts) && currentGroupId == old(currentGroupId)
    {
      isLoading, error := true, None;
    }

    /**
     * The end of `createPost`: a created post with a body is completed
     * with the stored username and put at the head of the list, the old
     * posts following unchanged; a failure only reports its message. On
     * success the reload `loadPosts(groupId)` starts at once and applies
     * its opening update (the group is remembered, the error cleared)
     * before this coroutine ends; its fetch is what `outcome` asks for and
     * `ReceivePosts` completes. In every outcome loading stops last (the
     * `finally`). The HTTP failure's message is the text of the error body.
     */
    method ReceiveCreatedPost(groupId: int, response: Response<Post>, now: string) returns (outcome: CreateOutcome)
      modifies this
      ensures !isLoading
      ensures response.Success? ==> error == None && currentGroupId == Some(groupId)
      ensures !response.Success? ==> error == old(error) && currentGroupId == old(currentGroupId)
      ensures response.Success? && response.body.Some? ==>
        posts == [CompletePost(response.body.value, tokenManager.GetUsername(), now)] + old(posts)
      ensures !(response.Success? && response.body.Some?) ==> posts == old(posts)
      ensures outcome.Created? <==> response.Success?
      ensures outcome.Created? ==> outcome.reloadGroupId == groupId
      ensures response.HttpError? ==> outcome == Failed("Errore nella creazione del post: " + response.message)
      ensures response.NetworkError? ==> outcome == Failed("Errore di rete nella creazione del post: " + response.message)
      ensures response.UnexpectedError? ==> outcome == Failed("Errore imprevisto nella creazione del post: " + response.message)
    {
      match response {
        case Success(body) =>
          if body.Some? {
            var completePost := CompletePost(body.value, tokenManager.GetUsername(), now);
            posts, isLoading := [completePost] + posts, false;
          }
          BeginLoadPosts(Some(groupId));
          outcome := Created(groupId);
        case HttpError(message) =>
          outcome := Failed("Errore nella creazione del post: " + message);
        case NetworkError(message) =>
          outcome := Failed("Errore di rete nella creazione del post: " + message);
        case UnexpectedError(message) =>
          outcome := Failed("Errore imprevisto nella creazione del post: " + message);
      }
      isLoading := false;
    }
  }

  /** Create a post as "anna" whose reply lacks the author, then fail a second one: one post, authored by "anna". */
  method CreateThenFail() returns (feed: seq<Post>, first: CreateOutcome, second: CreateOutcome, loading: bool, group: Option<int>)
    ensures |feed| == 1 && feed[0].authorUsername == Some("anna") && feed[0].createdAt == Some("2024-05-01")
    ensures first == Created(7) && second.Failed? && !loading && group == Some(7)
  {
    var session := new TokenManager(map[]);
    session.SaveUserData("a1", "r1", "anna");
    var vm := new PostViewModel(session);
    vm.BeginCreatePost();
    first := vm.ReceiveCreatedPost(7, Success(Some(Post(1, "Pulizia", "Parco", 7, None, None, None))), "2024-05-01");
    vm.BeginCreatePost();
    second := vm.ReceiveCreatedPost(7, NetworkError("timeout"), "2024-05-01");
    feed, loading, group := vm.posts, vm.isLoading, vm.currentGroupId;
  }
}
