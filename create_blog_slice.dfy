/** The create-blog slice: the `createBlog` thunk, which uploads a draft's image,
    rewrites the draft in place and inserts it, and the loading/error state. */
module CreateBlogSlice {
  import opened Wrappers
  import opened Entities
  import Js

  /** A member of the draft object: deleted (absent), null, or holding a value. */
  datatype Field<+T> = Absent | Null | Val(value: T)

  /** The draft object's members, as a value. */
  datatype Draft = Draft(
    title: string,
    body: string,
    image: Field<File>,
    imageUrl: Field<string>,
    author: User,
    tags: string,
    category: string,
    likes: seq<string>,
    views: int,
    comments: seq<Comment>,
    published: Stamp,
    updated: Stamp)

  /** The record `createBlog` inserts: `image` deleted, `imageUrl` set to the
      download URL, every other member as it was. */
  function WithImageUrl(d: Draft, url: string): (r: Draft)
    ensures r.image == Absent && r.imageUrl == Val(url)
    ensures r.(image := d.image, imageUrl := d.imageUrl) == d
  {
    d.(image := Absent, imageUrl := Val(url))
  }

  /** The message thrown by `blogData.image.name` when the image is not a file. */
  function ImageNameError(image: Field<File>): (message: string)
    ensures image.Null? ==> message == Js.CannotRead("null", "name")
    ensures image.Absent? ==> message == Js.CannotRead("undefined", "name")
  {
    Js.CannotRead(if image.Null? then "null" else "undefined", "name")
  }

  /** The storage path of an uploaded image: `images/<file name>`. */
  function ImagePath(f: File): (path: string)
    ensures |path| == 7 + |f.name| && path[..7] == "images/" && path[7..] == f.name
  {
    "images/" + f.name
  }

  /** The draft object handed to `createBlog`, which mutates it. */
  class DraftRecord {
    var title: string
    var body: string
    var image: Field<File>
    var imageUrl: Field<string>
    var author: User
    var tags: string
    var category: string
    var likes: seq<string>
    var views: int
    var comments: seq<Comment>
    var published: Stamp
    var updated: Stamp

    /** The object literal built from a draft value. */
    constructor (d: Draft)
      ensures Value() == d
    {
      title, body, image, imageUrl := d.title, d.body, d.image, d.imageUrl;
      author, tags, category := d.author, d.tags, d.category;
      likes, views, comments := d.likes, d.views, d.comments;
      published, updated := d.published, d.updated;
    }

    /** The object's members, as a value. */
    function Value(): Draft
      reads this
    {
      Draft(title, body, image, imageUrl, author, tags, category, likes, views, comments, published, updated)
    }
  }

  /** An upload issued to the file store. */
  datatype Upload = Upload(path: string, file: File)

  /** `createBlog(blogData)`: reading the image's name throws first when there is
      no image; otherwise the image is uploaded under its name, its URL looked up,
      the draft rewritten in place, and the draft inserted. The insert is issued
      only after the upload and the lookup succeed, and a failed insert leaves the
      upload (and the rewritten draft) in place. */
  method CreateBlog(draft: DraftRecord, upload: Outcome<()>, lookup: Outcome<string>, insert: Outcome<string>)
    returns (uploaded: Option<Upload>, inserted: Option<Draft>, result: Outcome<Draft>)
    modifies draft
    ensures !old(draft.image).Val? ==>
      && uploaded == None && inserted == None
      && result == Err(ImageNameError(old(draft.image)))
      && draft.Value() == old(draft.Value())
    ensures old(draft.image).Val? ==> uploaded == Some(Upload(ImagePath(old(draft.image).value), old(draft.image).value))
    ensures old(draft.image).Val? && upload.Err? ==>
      inserted == None && result == Err(upload.msg) && draft.Value() == old(draft.Value())
    ensures old(draft.image).Val? && upload.Ok? && lookup.Err? ==>
      inserted == None && result == Err(lookup.msg) && draft.Value() == old(draft.Value())
    ensures old(draft.image).Val? && upload.Ok? && lookup.Ok? ==>
      && draft.Value() == WithImageUrl(old(draft.Value()), lookup.data)
      && inserted == Some(draft.Value())
      && result == if insert.Ok? then Ok(draft.Value()) else Err(insert.msg)
  {
    if !draft.image.Val? {
      return None, None, Err(ImageNameError(draft.image));
    }
    var file := draft.image.value;
    uploaded := Some(Upload(ImagePath(file), file));
    if upload.Err? {
      return uploaded, None, Err(upload.msg);
    }
    if lookup.Err? {
      return uploaded, None, Err(lookup.msg);
    }
    draft.imageUrl := Val(lookup.data);
    draft.image := Absent;
    inserted := Some(draft.Value());
    if insert.Err? {
      return uploaded, inserted, Err(insert.msg);
    }
    result := Ok(draft.Value());
  }

  /** The slice's state, `{isLoading, error}`, updated in place. */
  class CreateBlogStore {
    var isLoading: bool
    var error: Option<string>

    /** The initial state: not loading, no error. */
    constructor ()
      ensures !isLoading && error == None
    {
      isLoading := false;
      error := None;
    }

    /** `createBlog.pending`: loading, error cleared. */
    method Pending()
      modifies this
      ensures isLoading && error == None
    {
      isLoading := true;
      error := None;
    }

    /** `createBlog.fulfilled`: not loading, error cleared; the payload is ignored. */
    method Fulfilled(payload: Draft)
      modifies this
      ensures !isLoading && error == None
    {
      isLoading := false;
      error := None;
    }

    /** `createBlog.rejected`: not loading, the message recorded. */
    method Rejected(message: string)
      modifies this
      ensures !isLoading && error == Some(message)
    {
      isLoading := false;
      error := Some(message);
    }

    /** `createBlog(draft)` as one step: afterwards not loading, and the error
        is cleared exactly when the thunk succeeded. */
    method RunCreateBlog(draft: DraftRecord, upload: Outcome<()>, lookup: Outcome<string>, insert: Outcome<string>)
      returns (uploaded: Option<Upload>, inserted: Option<Draft>)
      modifies this, draft
      ensures !isLoading
      ensures !old(draft.image).Val? ==> uploaded == None && inserted == None && error == Some(ImageNameError(old(draft.image)))
      ensures old(draft.image).Val? && upload.Err? ==> inserted == None && error == Some(upload.msg)
      ensures old(draft.image).Val? && upload.Ok? && lookup.Err? ==> inserted == None && error == Some(lookup.msg)
      ensures old(draft.image).Val? && upload.Ok? && lookup.Ok? ==> inserted == Some(draft.Value())
      ensures inserted.Some? ==> inserted.value == draft.Value() && draft.Value() == WithImageUrl(old(draft.Value()), lookup.data)
      ensures inserted.Some? && insert.Err? ==> error == Some(insert.msg)
      ensures old(draft.image).Val? ==> uploaded == Some(Upload(ImagePath(old(draft.image).value), old(draft.image).value))
      ensures !(old(draft.image).Val? && upload.Ok? && lookup.Ok?) ==> draft.Value() == old(draft.Value())
      ensures error == None <==> inserted.Some? && insert.Ok?
    {
      Pending();
      var result;
      uploaded, inserted, result := CreateBlog(draft, upload, lookup, insert);
      match result
      case Ok(record) => Fulfilled(record);
      case Err(m) => Rejected(m);
    }
  }
}
