/** The avatar editor: the preview it starts from, the reset when it opens,
    the file check of a picked or dropped image, and the save button. */
module ImageEditModal {
  import opened Base

  const FallbackAvatar := "https://ui-avatars.com/api/?name=User&size=160&background=6B46C1&color=fff"
  const AvatarTypes := ["image/png", "image/jpeg", "image/webp"]
  const AvatarMaxBytes := 5 * 1024 * 1024
  const AvatarFormatMessage := "Unsupported format. Use PNG, JPG, or WEBP."
  const AvatarSizeMessage := "The file exceeds 5MB. Please reduce the size."

  /** `currentUrl?.trim() || fallbackAvatar`: the trimmed URL when it is not
      blank, the fallback otherwise; never the empty string. */
  function PreviewFor(currentUrl: Option<string>): (r: string)
    ensures r != ""
    ensures currentUrl.Some? && !IsBlank(currentUrl.value) ==> r == Trim(currentUrl.value)
    ensures currentUrl.None? || IsBlank(currentUrl.value) ==> r == FallbackAvatar
  {
    if currentUrl.Some? && Trim(currentUrl.value) != "" then Trim(currentUrl.value) else FallbackAvatar
  }

  /** A URL with no surrounding blanks is previewed as it is. */
  lemma PreviewKeepsCleanUrl(url: string)
    requires url != "" && !IsSpace(url[0]) && !IsSpace(url[|url| - 1])
    ensures PreviewFor(Some(url)) == url
  {
  }

  /** The checks of `readFile`, in order: the type, then the size. */
  function AvatarCheck(f: FileInfo): (r: Option<string>)
    ensures r.None? <==> f.mime in AvatarTypes && f.size <= AvatarMaxBytes
    ensures f.mime !in AvatarTypes ==> r == Some(AvatarFormatMessage)
    ensures f.mime in AvatarTypes && f.size > AvatarMaxBytes ==> r == Some(AvatarSizeMessage)
  {
    if f.mime !in AvatarTypes then Some(AvatarFormatMessage)
    else if f.size > AvatarMaxBytes then Some(AvatarSizeMessage)
    else None
  }

  /** Exactly 5 MiB is accepted, one byte more is not, and an oversized file
      of a wrong type gets the format message. */
  lemma AvatarCheckBoundary(mime: string, size: int)
    requires mime in AvatarTypes
    ensures AvatarCheck(FileInfo(mime, 5242880)) == None
    ensures AvatarCheck(FileInfo(mime, 5242881)) == Some(AvatarSizeMessage)
    ensures AvatarCheck(FileInfo("image/gif", size)) == Some(AvatarFormatMessage)
  {
    assert "image/gif" != AvatarTypes[0] && "image/gif" != AvatarTypes[1] && "image/gif" != AvatarTypes[2];
  }

  class ImageEditor {
    /** the `currentUrl` prop */
    var currentUrl: Option<string>
    var preview: string
    var file: Option<FileInfo>
    var error: Option<string>
    var dragging: bool
    /** the files handed to `onSave`, in order */
    var saved: seq<FileInfo>
    /** how many times `onClose` was called */
    var closes: nat

    constructor (url: Option<string>)
      ensures currentUrl == url && preview == PreviewFor(url)
      ensures file == None && error == None && !dragging && saved == [] && closes == 0
    {
      currentUrl := url;
      preview := PreviewFor(url);
      file := None;
      error := None;
      dragging := false;
      saved := [];
      closes := 0;
    }

    /** The open effect: the preview goes back to the current URL (or the
        fallback), and the file, the error and the drag flag are cleared. */
    method Open(url: Option<string>)
      modifies this
      ensures currentUrl == url && preview == PreviewFor(url)
      ensures file == None && error == None && !dragging
      ensures saved == old(saved) && closes == old(closes)
    {
      currentUrl := url;
      preview := PreviewFor(url);
      file := None;
      error := None;
      dragging := false;
    }

    /** `readFile`: a rejected file sets the error and keeps the file that was
        already selected; an accepted one clears the error and is selected.
        The preview changes only when the reader delivers (`PreviewLoaded`). */
    method ReadFile(f: FileInfo)
      modifies this
      ensures AvatarCheck(f).Some? ==> error == AvatarCheck(f) && file == old(file)
      ensures AvatarCheck(f).None? ==> error == None && file == Some(f)
      ensures preview == old(preview) && dragging == old(dragging) && currentUrl == old(currentUrl)
      ensures saved == old(saved) && closes == old(closes)
    {
      var problem := AvatarCheck(f);
      if problem.Some? {
        error := problem;
        return;
      }
      error := None;
      file := Some(f);
    }

    /** The reader's `onload`: a non-empty data URL becomes the preview. */
    method PreviewLoaded(dataUrl: string)
      modifies this
      ensures dataUrl != "" ==> preview == dataUrl
      ensures dataUrl == "" ==> preview == old(preview)
      ensures file == old(file) && error == old(error) && dragging == old(dragging)
      ensures currentUrl == old(currentUrl) && saved == old(saved) && closes == old(closes)
    {
      if dataUrl != "" {
        preview := dataUrl;
      }
    }

    /** `onDragOver` and `onDragLeave`. */
    method SetDragging(over: bool)
      modifies this
      ensures dragging == over
      ensures preview == old(preview) && file == old(file) && error == old(error)
      ensures currentUrl == old(currentUrl) && saved == old(saved) && closes == old(closes)
    {
      dragging := over;
    }

    /** `handleDrop`: the drag flag is cleared, then the first dropped file,
        if any, is read. */
    method Drop(f: Option<FileInfo>)
      modifies this
      ensures !dragging
      ensures f.Some? && AvatarCheck(f.value).Some? ==> error == AvatarCheck(f.value) && file == old(file)
      ensures f.Some? && AvatarCheck(f.value).None? ==> error == None && file == f
      ensures f.None? ==> error == old(error) && file == old(file)
      ensures preview == old(preview) && currentUrl == old(currentUrl)
      ensures saved == old(saved) && closes == old(closes)
    {
      dragging := false;
      if f.Some? {
        ReadFile(f.value);
      }
    }

    /** The Save button: the selected file, if any, goes to `onSave`; the
        modal is closed either way. */
    method Save()
      modifies this
      ensures file.Some? ==> saved == old(saved) + [file.value]
      ensures file.None? ==> saved == old(saved)
      ensures closes == old(closes) + 1
      ensures preview == old(preview) && file == old(file) && error == old(error)
      ensures dragging == old(dragging) && currentUrl == old(currentUrl)
    {
      if file.Some? {
        saved := saved + [file.value];
      }
      closes := closes + 1;
    }
  }

  /** Opening, dropping a rejected file and saving hands nothing to
      `onSave`: the reset cleared the file and the rejection kept it clear. */
  method RejectedDropSavesNothing(url: Option<string>, f: FileInfo) returns (saved: seq<FileInfo>, error: Option<string>)
    requires AvatarCheck(f).Some?
    ensures saved == [] && error == AvatarCheck(f)
  {
    var editor := new ImageEditor(url);
    editor.Open(url);
    editor.Drop(Some(f));
    editor.Save();
    saved, error := editor.saved, editor.error;
  }
}
