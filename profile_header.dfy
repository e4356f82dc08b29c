/** The profile header: the placeholder avatar drawn from an initial, the
    choice between the stored avatar and the placeholder, and the date
    label. */
module ProfileHeader {
  import opened Base

  const DataPrefix := "data:"
  const SvgPrefix := "data:image/svg+xml;utf8,"
  const NoDate := "—"

  /** `(name || email || "User").trim()`: the first non-empty of the two,
      else "User", trimmed. */
  function PlaceholderBase(name: Option<string>, email: Option<string>): (r: string)
    ensures Present(name) ==> r == Trim(name.value)
    ensures !Present(name) && Present(email) ==> r == Trim(email.value)
    ensures !Present(name) && !Present(email) ==> r == "User"
  {
    if Present(name) then Trim(name.value)
    else if Present(email) then Trim(email.value)
    else Trim("User")
  }

  /** The letter drawn in the placeholder: the first character of the base,
      upper-cased, or 'U' when the base is empty. */
  function Initial(base: string): (r: char)
    ensures |base| > 0 ==> r == UpperChar(base[0])
    ensures |base| == 0 ==> r == 'U'
  {
    if |base| > 0 then UpperChar(base[0]) else 'U'
  }

  /** A name made only of blanks is not skipped (it is truthy), and trims
      to the empty base: its placeholder shows 'U', not the e-mail's
      initial. */
  lemma BlankNameGivesU(name: string, email: Option<string>)
    requires name != "" && IsBlank(name)
    ensures Initial(PlaceholderBase(Some(name), email)) == 'U'
  {
  }

  /** Where the avatar image comes from: the stored URL, or the placeholder
      drawn from an initial. */
  datatype AvatarSrc = Stored(url: string) | Placeholder(initial: char)

  /** The stored avatar when it holds a non-blank character, else the
      placeholder. */
  function ChooseSrc(avatar: string, name: Option<string>, email: Option<string>): (r: AvatarSrc)
    ensures !IsBlank(avatar) ==> r == Stored(avatar)
    ensures IsBlank(avatar) ==> r == Placeholder(Initial(PlaceholderBase(name, email)))
  {
    if avatar != "" && |Trim(avatar)| > 0 then Stored(avatar)
    else Placeholder(Initial(PlaceholderBase(name, email)))
  }

  /** The `src` attribute; `svgOf` is the SVG document of an initial,
      already URI-encoded. */
  function SrcText(src: AvatarSrc, svgOf: char -> string): (r: string)
    ensures src.Stored? ==> r == src.url
    ensures src.Placeholder? ==> r == SvgPrefix + svgOf(src.initial)
  {
    match src
    case Stored(url) => url
    case Placeholder(c) => SvgPrefix + svgOf(c)
  }

  /** Image optimisation is off for a data URL. */
  predicate Unoptimized(srcText: string)
  {
    StartsWith(srcText, DataPrefix)
  }

  /** The placeholder is always a data URL, so it is never optimised, and a
      stored avatar is optimised unless it is a data URL itself. */
  lemma PlaceholderUnoptimized(src: AvatarSrc, svgOf: char -> string)
    ensures src.Placeholder? ==> Unoptimized(SrcText(src, svgOf))
    ensures src.Stored? ==> (Unoptimized(SrcText(src, svgOf)) <==> StartsWith(src.url, DataPrefix))
  {
    if src.Placeholder? {
      var t := SrcText(src, svgOf);
      assert t[..|DataPrefix|] == SvgPrefix[..|DataPrefix|];
    }
  }

  /** `safeDateLabel`; `formatted` is the locale date of the parsed value,
      `None` when it does not parse. */
  function SafeDateLabel(v: Option<string>, formatted: Option<string>): (r: string)
    ensures !Present(v) ==> r == NoDate
    ensures Present(v) && formatted.None? ==> r == NoDate
    ensures Present(v) && formatted.Some? ==> r == formatted.value
  {
    if !Present(v) then NoDate
    else if formatted.None? then NoDate
    else formatted.value
  }
}
