/** The pin records shared by the pin components (IPins, IComment, the pin
    detail of the modal) and the per-pin like state. */
module PinTypes {
  import opened Base

  datatype Hashtag = Hashtag(id: string, tag: string)

  /** A pin as listed (IPins). Fields the backend may omit are `Option`s. */
  datatype Pin = Pin(
    id: string,
    image: Option<string>,
    description: Option<string>,
    views: int,
    user: string,
    likes: Option<int>,
    likesCount: int,
    liked: Option<bool>,
    commentsCount: int,
    comment: Option<int>,
    hashtag: Option<seq<Hashtag>>)

  datatype Comment = Comment(id: string, text: string, createdAt: string)

  /** The pin detail shown by the modal (UIPinModal). */
  datatype PinDetail = PinDetail(
    id: string,
    name: string,
    image: string,
    description: Option<string>,
    likes: int,
    comment: int,
    views: int,
    created: Option<string>,
    comments: Option<seq<Comment>>,
    hashtag: Option<seq<Hashtag>>,
    user: string)

  /** What a like button shows: whether the viewer likes the pin, and the count. */
  datatype LikeState = LikeState(liked: bool, likesCount: int)
}
