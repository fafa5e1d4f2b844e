/** The client-side mirrors of the server's user and tweet resources. */
module Types {
  import opened Js

  datatype User = User(
    id: string,
    username: string,
    name: string,
    email: string,
    imageUrl: Option<string>,
    followersCount: int,
    followingCount: int,
    isFollowing: bool)

  /** `isLikedByMe` and `likesCount` are relative to the viewing user. */
  datatype Tweet = Tweet(
    id: string,
    content: string,
    userId: string,
    createdAt: string,
    isLikedByMe: bool,
    likesCount: int,
    repliesCount: int,
    user: User)
}
