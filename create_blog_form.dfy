/** The submit handler of the create-post form: who may submit, which fields
    are required, the draft it dispatches, and the reset that follows. */
module CreateBlogForm {
  import opened Wrappers
  import opened Entities
  import opened CreateBlogSlice
  import Js

  /** The three ways a submit can end. */
  datatype Verdict = NotSignedIn | MissingFields | Submit

  /** The guards of `handleSubmit`, in their order: the signed-in check comes
      first, then the four text fields must all be non-empty. The image is not
      checked. */
  function CheckSubmit(user: Option<User>, title: string, body: string, tags: string, category: string): (v: Verdict)
    ensures v == Submit <==> user.Some? && title != "" && body != "" && tags != "" && category != ""
    ensures user.None? ==> v == NotSignedIn
    ensures v == MissingFields <==> user.Some? && (title == "" || body == "" || tags == "" || category == "")
  {
    if user.None? then NotSignedIn
    else if title == "" || body == "" || tags == "" || category == "" then MissingFields
    else Submit
  }

  /** The draft `handleSubmit` builds: the signed-in user as author, the four
      text fields as typed, the image or null, no likes, no views, no comments,
      and two readings of the clock as the dates. It has no `imageUrl` yet. */
  function BuildDraft(author: User, title: string, body: string, image: Option<File>, tags: string, category: string,
                      published: Stamp, updated: Stamp): (d: Draft)
    ensures d.author == author && d.likes == [] && d.views == 0 && d.comments == []
    ensures d.title == title && d.body == body && d.tags == tags && d.category == category
    ensures image.Some? ==> d.image == Val(image.value)
    ensures image.None? ==> d.image == Null
    ensures d.imageUrl == Absent && d.published == published && d.updated == updated
  {
    Draft(title, body, if image.Some? then Val(image.value) else Null, Absent, author, tags, category,
          [], 0, [], published, updated)
  }

  /** The form's five state hooks. */
  class Form {
    var title: string
    var body: string
    var image: Option<File>
    var tags: string
    var category: string

    /** The initial hook values: empty text, no image. */
    constructor ()
      ensures Cleared()
    {
      title, body, image, tags, category := "", "", None, "", "";
    }

    /** Every field back at its initial value. */
    predicate Cleared()
      reads this
    {
      title == "" && body == "" && image == None && tags == "" && category == ""
    }

    /** `handleSubmit`: a rejected submit dispatches nothing and keeps the form;
        an accepted one dispatches a fresh draft object built from the form and
        then resets all five fields. */
    method HandleSubmit(user: Option<User>, published: Stamp, updated: Stamp) returns (dispatched: DraftRecord?)
      modifies this
      ensures CheckSubmit(user, old(title), old(body), old(tags), old(category)) != Submit ==>
        dispatched == null && unchanged(this)
      ensures CheckSubmit(user, old(title), old(body), old(tags), old(category)) == Submit ==>
        && dispatched != null && fresh(dispatched)
        && dispatched.Value() == BuildDraft(user.value, old(title), old(body), old(image), old(tags), old(category), published, updated)
        && Cleared()
    {
      if CheckSubmit(user, title, body, tags, category) != Submit {
        return null;
      }
      dispatched := new DraftRecord(BuildDraft(user.value, title, body, image, tags, category, published, updated));
      title := "";
      body := "";
      image := None;
      tags := "";
      category := "";
    }
  }

  /** A signed-in user who fills the four text fields but picks no image gets
      past the form, and the dispatched draft is then rejected by `createBlog`
      before anything is uploaded or inserted. */
  method SubmitWithoutImage(user: User, title: string, body: string, tags: string, category: string, now: Stamp)
    returns (dispatched: bool, uploaded: Option<Upload>, inserted: Option<Draft>, error: Option<string>)
    requires title != "" && body != "" && tags != "" && category != ""
    ensures dispatched && uploaded == None && inserted == None
    ensures error == Some(Js.CannotRead("null", "name"))
  {
    var form := new Form();
    form.title, form.body, form.tags, form.category := title, body, tags, category;
    var draft := form.HandleSubmit(Some(user), now, now);
    dispatched := draft != null;
    var store := new CreateBlogStore();
    uploaded, inserted := store.RunCreateBlog(draft, Ok(()), Ok(""), Ok(""));
    error := store.error;
  }
}
