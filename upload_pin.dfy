/** The pin upload form: the file validator, the hashtag tokeniser, and the
    upload handler with its preconditions, its three requests and its error
    branches. */
module UploadPin {
  import opened Base
  import Browser
  import Api
  import PinsServices

  const MaxBytes := 2 * 1024 * 1024
  const AllowedTypes := ["image/jpeg", "image/png", "image/webp"]
  const FormatMessage := "File format not allowed (jpg/png/webp)."
  const SizeMessage := "File exceeds 2 MB."
  const RequiredMessage := "Image, description and category are required."
  const LoginMessage := "You must be logged in to upload pins"
  const UploadedMessage := "Pin uploaded successfully!"
  const SessionMessage := "Session expired. Please login again."
  const LimitMessage := "You have reached your daily limit. Please subscribe."
  const FailedError := "Failed to upload pin. Please try again."
  const FailedToast := "Failed to upload pin."

  // ---------------------------------------------------------------------------
  // validateFile

  /** `validateFile`: the type is checked first, then the size; null means
      the file is accepted. */
  function ValidateFile(f: FileInfo): (r: Option<string>)
    ensures r.None? <==> f.mime in AllowedTypes && f.size <= MaxBytes
    ensures f.mime !in AllowedTypes ==> r == Some(FormatMessage)
    ensures f.mime in AllowedTypes && f.size > MaxBytes ==> r == Some(SizeMessage)
  {
    if f.mime !in AllowedTypes then Some(FormatMessage)
    else if f.size > MaxBytes then Some(SizeMessage)
    else None
  }

  /** A file of exactly 2 MiB passes; one byte more does not. */
  lemma ValidateFileBoundary(mime: string)
    requires mime in AllowedTypes
    ensures ValidateFile(FileInfo(mime, 2097152)) == None
    ensures ValidateFile(FileInfo(mime, 2097153)) == Some(SizeMessage)
  {
  }

  // ---------------------------------------------------------------------------
  // hashtags

  /** The class `[\s,]`: whitespace (ASCII) and the comma. */
  const TagSeparators: set<char> := {' ', '\t', '\n', '\r', '\U{000B}', '\U{000C}', ','}

  lemma SpacesSeparate(c: char)
    ensures IsSpace(c) ==> c in TagSeparators
  {
  }

  /** `.replace(/^#/, '')`: one leading '#' is removed. */
  function StripHash(t: string): (r: string)
    ensures |t| > 0 && t[0] == '#' ==> r == t[1..]
    ensures !(|t| > 0 && t[0] == '#') ==> r == t
  {
    if |t| > 0 && t[0] == '#' then t[1..] else t
  }

  /** `.map(tag => tag.trim().replace(/^#/, ''))` */
  function CleanTags(pieces: seq<string>): (r: seq<string>)
    ensures |r| == |pieces|
  {
    if |pieces| == 0 then [] else [StripHash(Trim(pieces[0]))] + CleanTags(pieces[1..])
  }

  /** Each piece is cleaned on its own. */
  lemma {:induction false} CleanTagsAt(pieces: seq<string>)
    ensures forall k :: 0 <= k < |pieces| ==> CleanTags(pieces)[k] == StripHash(Trim(pieces[k]))
  {
    if |pieces| > 0 {
      CleanTagsAt(pieces[1..]);
      forall k | 0 < k < |pieces| ensures CleanTags(pieces)[k] == StripHash(Trim(pieces[k])) {
        assert CleanTags(pieces)[k] == CleanTags(pieces[1..])[k - 1];
        assert pieces[1..][k - 1] == pieces[k];
      }
    }
  }

  /** The hashtag pipeline: split on whitespace and commas, trim, strip one
      '#', drop the empty tags. Splitting on single separators leaves an
      empty piece between two adjacent separators where the regex `[\s,]+`
      would not; the last step drops both kinds of empty piece alike. */
  function ParseHashtags(input: string): seq<string>
  {
    NonEmpty(CleanTags(Split(input, TagSeparators)))
  }

  /** Every parsed tag is non-empty and holds no whitespace and no comma. */
  lemma ParseHashtagsTokens(input: string)
    ensures forall k :: 0 <= k < |ParseHashtags(input)| ==>
      ParseHashtags(input)[k] != "" && Avoids(ParseHashtags(input)[k], TagSeparators)
  {
    var pieces := Split(input, TagSeparators);
    var cleaned := CleanTags(pieces);
    SplitAvoids(input, TagSeparators);
    CleanTagsAt(pieces);
    forall k | 0 <= k < |cleaned| ensures Avoids(cleaned[k], TagSeparators) {
      TrimAvoids(pieces[k], TagSeparators);
      var t := Trim(pieces[k]);
      if |t| > 0 && t[0] == '#' {
        assert forall i :: 0 <= i < |t| - 1 ==> t[1..][i] == t[i + 1];
      }
    }
    NonEmptyFilters(cleaned);
  }

  /** A tag the tokeniser gives back as it is. */
  predicate PlainTag(t: string)
  {
    t != "" && t[0] != '#' && Avoids(t, TagSeparators)
  }

  /** Tags typed separated by blanks are read back exactly. */
  lemma {:induction false} HashtagsRoundTrip(tags: seq<string>)
    requires forall k :: 0 <= k < |tags| ==> PlainTag(tags[k])
    ensures ParseHashtags(Join(tags, [' '])) == tags
  {
    if |tags| == 0 {
      assert Split("", TagSeparators) == [""];
      assert CleanTags([""]) == [""];
    } else {
      SplitJoin(tags, ' ', TagSeparators);
      forall k | 0 <= k < |tags| ensures StripHash(Trim(tags[k])) == tags[k] {
        var t := tags[k];
        SpacesSeparate(t[0]);
        SpacesSeparate(t[|t| - 1]);
      }
      CleanTagsAt(tags);
      assert CleanTags(tags) == tags;
      NonEmptyKeeps(tags);
    }
  }

  /** A '#' typed before a tag is dropped. */
  lemma HashPrefixDropped(t: string)
    requires PlainTag(t)
    ensures ParseHashtags("#" + t) == [t]
  {
    var s := "#" + t;
    assert Avoids(s, TagSeparators);
    SplitFree(s, TagSeparators);
    SpacesSeparate(s[0]);
    SpacesSeparate(s[|s| - 1]);
    assert Trim(s) == s;
    assert s[1..] == t;
    assert CleanTags([s]) == [t];
  }

  // ---------------------------------------------------------------------------
  // handleUpload

  datatype Category = Category(id: string, name: string)

  /** What the backend said in `response.data.message`: nothing, a string,
      or a list of strings. */
  datatype ServerMessage = NoMessage | Text(text: string) | Lines(lines: seq<string>)

  /** A rejected request: its status and message, when the response had them. */
  datatype Failure = Failure(status: Option<int>, message: ServerMessage)

  /** The outcome of one awaited step of the upload. */
  datatype Step<T> = Done(value: T) | Failed(failure: Failure)
  {
    function AsNet(): Net<T>
    {
      match this
      case Done(v) => Ok(v)
      case Failed(f) => Fail(f.status)
    }
  }

  datatype SavePayload = SavePayload(image: string, description: string, categoryId: string, hashtags: seq<string>)

  datatype UploadRequest =
    | SignatureRequest
    | CloudinaryUpload(file: FileInfo)
    | SavePinRequest(payload: SavePayload)

  /** The message a failure carries when it is truthy: a string that is not
      empty, or any list joined with ", " (an empty list is truthy too). */
  function MessageText(m: ServerMessage): Option<string>
  {
    match m
    case NoMessage => None
    case Text(t) => if t == "" then None else Some(t)
    case Lines(ls) => Some(Join(ls, ", "))
  }

  /** The toast of a failed upload. */
  function FailureToast(f: Failure): (r: Toast)
    ensures f.status == Some(401) ==> r == Error(SessionMessage)
    ensures f.status == Some(403) ==> r == Error(LimitMessage)
    ensures f.status != Some(401) && f.status != Some(403) && MessageText(f.message).Some? ==>
      r == Error(MessageText(f.message).value)
    ensures f.status != Some(401) && f.status != Some(403) && MessageText(f.message).None? ==>
      r == Error(FailedToast)
  {
    if f.status == Some(401) then Error(SessionMessage)
    else if f.status == Some(403) then Error(LimitMessage)
    else if MessageText(f.message).Some? then Error(MessageText(f.message).value)
    else Error(FailedToast)
  }

  /** The form error after a failed upload (it was cleared when the upload
      started): none for 401 and 403, else the server message or the
      generic text. */
  function FailureError(f: Failure): (r: Option<string>)
    ensures r.None? <==> f.status == Some(401) || f.status == Some(403)
    ensures r.Some? ==> Error(r.value) == FailureToast(f) || (r.value == FailedError && FailureToast(f) == Error(FailedToast))
  {
    if f.status == Some(401) || f.status == Some(403) then None
    else if MessageText(f.message).Some? then MessageText(f.message)
    else Some(FailedError)
  }

  /** The step that stops the upload, if any. */
  function FirstFailure(sig: Step<()>, cloud: Step<string>, save: Step<()>): Option<Failure>
  {
    if sig.Failed? then Some(sig.failure)
    else if cloud.Failed? then Some(cloud.failure)
    else if save.Failed? then Some(save.failure)
    else None
  }

  /** The requests an upload sends: each step waits for the one before. */
  function UploadRequests(file: FileInfo, sig: Step<()>, cloud: Step<string>, payload: SavePayload): seq<UploadRequest>
  {
    [SignatureRequest] +
    (if sig.Failed? then [] else [CloudinaryUpload(file)] + (if cloud.Failed? then [] else [SavePinRequest(payload)]))
  }

  /** The signature is always requested; the file is uploaded only after
      the signature arrived, and the pin saved only after the upload. */
  lemma UploadRequestsOrder(file: FileInfo, sig: Step<()>, cloud: Step<string>, payload: SavePayload)
    ensures var r := UploadRequests(file, sig, cloud, payload);
      1 <= |r| <= 3 && r[0] == SignatureRequest &&
      (CloudinaryUpload(file) in r <==> sig.Done?) &&
      (SavePinRequest(payload) in r <==> sig.Done? && cloud.Done?)
  {
  }

  /** A 401 from a request of the shared api (the signature or the save)
      also runs that instance's response interceptor, so the browser is sent
      to /login twice; a 401 from the storage upload runs only the handler. */
  function LoginRedirects(sig: Step<()>, cloud: Step<string>, save: Step<()>): (r: seq<string>)
    ensures FirstFailure(sig, cloud, save).None? ==> r == []
    ensures forall i :: 0 <= i < |r| ==> r[i] == "/login"
    ensures |r| > 0 <==> FirstFailure(sig, cloud, save).Some? && FirstFailure(sig, cloud, save).value.status == Some(401)
  {
    var f := FirstFailure(sig, cloud, save);
    if f.None? || f.value.status != Some(401) then []
    else if cloud.Failed? && sig.Done? then ["/login"]
    else ["/login", "/login"]
  }

  /** The `savePin` body: the uploaded image URL, the description and the
      category as typed, and the parsed hashtags. */
  function PayloadFor(cloud: Step<string>, description: string, categoryId: string, hashtagsInput: string): SavePayload
  {
    SavePayload(if cloud.Done? then cloud.value else "", description, categoryId, ParseHashtags(hashtagsInput))
  }

  predicate HasToken(storage: map<string, string>)
  {
    "auth:token" in storage && storage["auth:token"] != ""
  }

  /** The awaited steps of an upload, and the requests they send. A step
      that fails stops the ones after it; the signature and the save go
      through the shared api and its 401 interceptor, the storage upload
      does not. */
  method RunSteps(b: Browser.Browser, f: FileInfo, payload: SavePayload,
                  sig: Step<()>, cloud: Step<string>, save: Step<()>)
    returns (failure: Option<Failure>, sent: seq<UploadRequest>)
    modifies b
    ensures failure == FirstFailure(sig, cloud, save)
    ensures sent == UploadRequests(f, sig, cloud, payload)
    ensures var apiCall401 := (sig.Failed? && sig.failure.status == Some(401)) ||
                              (sig.Done? && cloud.Done? && save.Failed? && save.failure.status == Some(401));
      (apiCall401 ==> b.storage == old(b.storage) - {"auth:token", "auth:user"} && b.redirects == old(b.redirects) + ["/login"]) &&
      (!apiCall401 ==> b.storage == old(b.storage) && b.redirects == old(b.redirects))
  {
    sent := [SignatureRequest];
    var r1 := Api.Settle(b, true, sig.AsNet());
    if sig.Failed? {
      return Some(sig.failure), sent;
    }
    sent := sent + [CloudinaryUpload(f)];
    if cloud.Failed? {
      return Some(cloud.failure), sent;
    }
    sent := sent + [SavePinRequest(payload)];
    var r3 := Api.Settle(b, true, save.AsNet());
    if save.Failed? {
      return Some(save.failure), sent;
    }
    return None, sent;
  }

  /** The 401 branch of the catch: the stored session is removed and the
      browser sent to /login. */
  method EndSession(b: Browser.Browser)
    modifies b
    ensures b.storage == old(b.storage) - {"auth:token", "auth:user"}
    ensures b.redirects == old(b.redirects) + ["/login"]
  {
    b.RemoveItem("auth:token");
    b.RemoveItem("auth:user");
    b.Navigate("/login");
  }

  class UploadForm {
    var file: Option<FileInfo>
    var description: string
    var hashtagsInput: string
    var categories: seq<Category>
    var categoryId: string
    var error: Option<string>
    var uploading: bool
    var preview: Option<string>
    var toasts: seq<Toast>
    var requests: seq<UploadRequest>

    constructor ()
      ensures file == None && description == "" && hashtagsInput == "" && categories == []
      ensures categoryId == "" && error == None && !uploading && preview == None
      ensures toasts == [] && requests == []
    {
      file := None;
      description := "";
      hashtagsInput := "";
      categories := [];
      categoryId := "";
      error := None;
      uploading := false;
      preview := None;
      toasts := [];
      requests := [];
    }

    /** `selectFile`, followed by the preview effect: a rejected file sets the
        error and clears the file and the preview; an accepted one clears the
        error, becomes the file, and gets `objectUrl` as its preview. */
    method SelectFile(f: FileInfo, objectUrl: string)
      modifies this
      ensures ValidateFile(f).Some? ==> error == ValidateFile(f) && file == None && preview == None
      ensures ValidateFile(f).None? ==> error == None && file == Some(f) && preview == Some(objectUrl)
      ensures description == old(description) && hashtagsInput == old(hashtagsInput)
      ensures categories == old(categories) && categoryId == old(categoryId) && uploading == old(uploading)
      ensures toasts == old(toasts) && requests == old(requests)
    {
      var validationError := ValidateFile(f);
      if validationError.Some? {
        error := validationError;
        file := None;
        preview := None;
        return;
      }
      error := None;
      file := Some(f);
      preview := Some(objectUrl);
    }

    /** The categories effect: the response interceptor sees the reply first
        (a 401 ends the session); `getCategories` resolves with [] on failure;
        the first category, when there is one, is preselected. */
    method LoadCategories(b: Browser.Browser, resp: Net<seq<Category>>)
      modifies this, b
      ensures b.storage == Api.SessionAfter(old(b.storage), resp)
      ensures b.redirects == Api.RedirectsAfter(old(b.redirects), resp)
      ensures categories == PinsServices.ListOrEmpty(resp)
      ensures |categories| > 0 ==> categoryId == categories[0].id
      ensures |categories| == 0 ==> categoryId == old(categoryId)
      ensures file == old(file) && description == old(description) && hashtagsInput == old(hashtagsInput)
      ensures error == old(error) && uploading == old(uploading) && preview == old(preview)
      ensures toasts == old(toasts) && requests == old(requests)
    {
      var settled := Api.Settle(b, true, resp);
      var cats := PinsServices.ListOrEmpty(settled);
      categories := cats;
      if |cats| > 0 {
        categoryId := cats[0].id;
      }
    }

    /** Typing in the three text inputs. */
    method Edit(newDescription: string, newHashtags: string, newCategory: string)
      modifies this
      ensures description == newDescription && hashtagsInput == newHashtags && categoryId == newCategory
      ensures file == old(file) && categories == old(categories) && error == old(error)
      ensures uploading == old(uploading) && preview == old(preview)
      ensures toasts == old(toasts) && requests == old(requests)
    {
      description := newDescription;
      hashtagsInput := newHashtags;
      categoryId := newCategory;
    }

    /** The form can be sent: a file, a non-blank description, a category. */
    predicate Complete()
      reads this
    {
      file.Some? && !IsBlank(description) && categoryId != ""
    }

    /** The body of the `try` of `handleUpload` and its `finally`: the error
        is cleared, the steps run, and the form is reset on success or the
        failure reported; `uploading` is false at the end. */
    method Upload(b: Browser.Browser, sig: Step<()>, cloud: Step<string>, save: Step<()>)
      requires file.Some?
      modifies this, b
      ensures !uploading && categories == old(categories) && categoryId == old(categoryId)
      ensures requests == old(requests) + UploadRequests(old(file).value, sig, cloud,
                PayloadFor(cloud, old(description), old(categoryId), old(hashtagsInput)))
      ensures b.redirects == old(b.redirects) + LoginRedirects(sig, cloud, save)
      ensures FirstFailure(sig, cloud, save).None? ==>
        toasts == old(toasts) + [Success(UploadedMessage)] && error == None &&
        file == None && preview == None && description == "" && hashtagsInput == "" &&
        b.storage == old(b.storage)
      ensures FirstFailure(sig, cloud, save).Some? ==>
        toasts == old(toasts) + [FailureToast(FirstFailure(sig, cloud, save).value)] &&
        error == FailureError(FirstFailure(sig, cloud, save).value) &&
        file == old(file) && preview == old(preview) && description == old(description) &&
        hashtagsInput == old(hashtagsInput)
      ensures FirstFailure(sig, cloud, save).Some? ==>
        var status := FirstFailure(sig, cloud, save).value.status;
        (status == Some(401) ==> b.storage == old(b.storage) - {"auth:token", "auth:user"}) &&
        (status != Some(401) ==> b.storage == old(b.storage))
    {
      error := None;
      uploading := true;
      var payload := PayloadFor(cloud, description, categoryId, hashtagsInput);
      var failure, sent := RunSteps(b, file.value, payload, sig, cloud, save);
      requests := requests + sent;
      if failure.None? {
        Uploaded();
      } else {
        Reject(b, failure.value);
      }
      uploading := false;
    }

    /** The end of a successful `try`: the success toast, and the form reset. */
    method Uploaded()
      modifies this
      ensures toasts == old(toasts) + [Success(UploadedMessage)]
      ensures file == None && preview == None && description == "" && hashtagsInput == ""
      ensures error == old(error) && uploading == old(uploading) && requests == old(requests)
      ensures categories == old(categories) && categoryId == old(categoryId)
    {
      toasts := toasts + [Success(UploadedMessage)];
      file := None;
      preview := None;
      description := "";
      hashtagsInput := "";
    }

    /** The `catch`: the toast of the failure, the end of the session on a
        401, and the form error unless the status was 401 or 403. */
    method Reject(b: Browser.Browser, f: Failure)
      requires error == None
      modifies this, b
      ensures toasts == old(toasts) + [FailureToast(f)]
      ensures error == FailureError(f)
      ensures f.status == Some(401) ==>
        b.storage == old(b.storage) - {"auth:token", "auth:user"} && b.redirects == old(b.redirects) + ["/login"]
      ensures f.status != Some(401) ==> b.storage == old(b.storage) && b.redirects == old(b.redirects)
      ensures file == old(file) && preview == old(preview) && description == old(description)
      ensures hashtagsInput == old(hashtagsInput) && uploading == old(uploading) && requests == old(requests)
      ensures categories == old(categories) && categoryId == old(categoryId)
    {
      toasts := toasts + [FailureToast(f)];
      if f.status == Some(401) {
        EndSession(b);
      } else if f.status != Some(403) {
        error := FailureError(f);
      }
    }

    /** `handleUpload`. An incomplete form only sets the required error, and
        a missing token only shows a toast: neither sends a request nor
        touches `uploading`. Otherwise the upload runs as `Upload` says. */
    method HandleUpload(b: Browser.Browser, sig: Step<()>, cloud: Step<string>, save: Step<()>)
      modifies this, b
      ensures !old(Complete()) ==>
        error == Some(RequiredMessage) && toasts == old(toasts) && requests == old(requests) &&
        uploading == old(uploading) && file == old(file) && preview == old(preview) &&
        description == old(description) && hashtagsInput == old(hashtagsInput) &&
        categories == old(categories) && categoryId == old(categoryId) &&
        b.storage == old(b.storage) && b.redirects == old(b.redirects)
      ensures old(Complete()) && !HasToken(old(b.storage)) ==>
        toasts == old(toasts) + [Error(LoginMessage)] && error == old(error) && requests == old(requests) &&
        uploading == old(uploading) && file == old(file) && preview == old(preview) &&
        description == old(description) && hashtagsInput == old(hashtagsInput) &&
        categories == old(categories) && categoryId == old(categoryId) &&
        b.storage == old(b.storage) && b.redirects == old(b.redirects)
      ensures old(Complete()) && HasToken(old(b.storage)) ==>
        !uploading && categories == old(categories) && categoryId == old(categoryId) &&
        requests == old(requests) + UploadRequests(old(file).value, sig, cloud,
          PayloadFor(cloud, old(description), old(categoryId), old(hashtagsInput))) &&
        b.redirects == old(b.redirects) + LoginRedirects(sig, cloud, save)
      ensures old(Complete()) && HasToken(old(b.storage)) && FirstFailure(sig, cloud, save).None? ==>
        toasts == old(toasts) + [Success(UploadedMessage)] && error == None &&
        file == None && preview == None && description == "" && hashtagsInput == "" &&
        b.storage == old(b.storage)
      ensures old(Complete()) && HasToken(old(b.storage)) && FirstFailure(sig, cloud, save).Some? ==>
        toasts == old(toasts) + [FailureToast(FirstFailure(sig, cloud, save).value)] &&
        error == FailureError(FirstFailure(sig, cloud, save).value) &&
        file == old(file) && preview == old(preview) && description == old(description) &&
        hashtagsInput == old(hashtagsInput) &&
        (FirstFailure(sig, cloud, save).value.status == Some(401) ==>
           b.storage == old(b.storage) - {"auth:token", "auth:user"}) &&
        (FirstFailure(sig, cloud, save).value.status != Some(401) ==> b.storage == old(b.storage))
    {
      if file.None? || IsBlank(description) || categoryId == "" {
        error := Some(RequiredMessage);
        return;
      }
      var token := b.GetItem("auth:token");
      if !Present(token) {
        toasts := toasts + [Error(LoginMessage)];
        return;
      }
      Upload(b, sig, cloud, save);
    }
  }
}
