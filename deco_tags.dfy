/** The two template tags (templatetags/deco_tags.py): `frame` draws a frame
    given either the frame itself or its title, and `frame_link` writes an
    anchor to it. A title no stored frame carries gives a diagnostic string
    instead of an error. */
module DecoTags {

  import opened Wrappers
  import opened Models
  import Store

  /** What a tag is given: a frame, or anything else, which is taken as a title. */
  datatype FrameRef = Ref(frame: Frame) | Title(title: string)

  const NonExistentPrefix: string := "[deco error: non-existent frame \""

  /** The diagnostic both tags give for a title no frame carries. */
  function NonExistentFrameMessage(title: string): string
  {
    NonExistentPrefix + title + "\"]"
  }

  /** The title a non-existent-frame diagnostic was made for, if it is one. */
  function TitleOfDiagnostic(message: string): Option<string>
  {
    if |message| >= |NonExistentPrefix| + 2
       && message[..|NonExistentPrefix|] == NonExistentPrefix
       && message[|message| - 2..] == "\"]"
    then Some(message[|NonExistentPrefix|..|message| - 2])
    else None
  }

  lemma DiagnosticNamesTitle(title: string)
    ensures TitleOfDiagnostic(NonExistentFrameMessage(title)) == Some(title)
  {
  }

  /** `{% frame ref context %}`: a frame is drawn as is; a title draws the first
      stored frame with exactly that title. Either way the draw has no
      decorator and gets the tag's context. */
  function FrameTag(lib: Library, store: seq<Frame>, ref: FrameRef, context: Context): (r: Result<string, Error>)
    ensures ref.Ref? ==> r == Draw(lib, ref.frame, None, context)
    ensures ref.Title? && Store.NoMatch(store, Store.TitleField, ref.title) ==>
      r == Success(NonExistentFrameMessage(ref.title))
    ensures ref.Title? && !Store.NoMatch(store, Store.TitleField, ref.title) ==>
      r == Draw(lib, store[Store.FirstIndex(store, Store.TitleField, ref.title).value], None, context)
  {
    match ref
    case Ref(f) => Draw(lib, f, None, context)
    case Title(t) =>
      match Store.First(store, Store.TitleField, t)
      case None => Success(NonExistentFrameMessage(t))
      case Some(f) => Draw(lib, f, None, context)
  }

  // ---------------------------------------------------------------------------
  // frame_link
  // ---------------------------------------------------------------------------

  const LinkOpen: string := "<a href=\""
  const LinkClose: string := "</a>"

  /** The anchor the link tag writes; neither part is escaped. */
  function LinkMarkup(url: string, text: string): string
  {
    LinkOpen + url + "\">" + text + LinkClose
  }

  /** The link text: the given text when there is one (even ""), else the title. */
  function LinkText(f: Frame, text: Option<string>): string
  {
    if text.None? then f.title else text.value
  }

  /** `{% frame_link ref text %}`: an anchor to the frame's URL, or the
      diagnostic when the title names no frame. */
  function FrameLink(store: seq<Frame>, ref: FrameRef, text: Option<string>): (r: string)
    ensures ref.Ref? ==> r == LinkMarkup(ref.frame.url, LinkText(ref.frame, text))
    ensures ref.Title? && Store.NoMatch(store, Store.TitleField, ref.title) ==>
      r == NonExistentFrameMessage(ref.title)
    ensures ref.Title? && !Store.NoMatch(store, Store.TitleField, ref.title) ==>
      var f := store[Store.FirstIndex(store, Store.TitleField, ref.title).value];
      r == LinkMarkup(f.url, LinkText(f, text))
  {
    match ref
    case Ref(f) => LinkMarkup(f.url, LinkText(f, text))
    case Title(t) =>
      match Store.First(store, Store.TitleField, t)
      case None => NonExistentFrameMessage(t)
      case Some(f) => LinkMarkup(f.url, LinkText(f, text))
  }

  /** The position of the first occurrence of `c` in `s`. */
  function IndexOf(s: string, c: char): (r: Option<nat>)
    ensures r.None? <==> c !in s
    ensures r.Some? ==> r.value < |s| && s[r.value] == c && c !in s[..r.value]
    decreases |s|
  {
    if |s| == 0 then None
    else if s[0] == c then Some(0)
    else match IndexOf(s[1..], c)
      case None => None
      case Some(k) =>
        assert s[..k + 1] == [s[0]] + s[1..][..k];
        Some(k + 1)
  }

  /** Reads an anchor back into its URL and text, splitting at the first quote. */
  function ParseLink(s: string): Option<(string, string)>
  {
    if |s| >= |LinkOpen| + |LinkClose|
       && s[..|LinkOpen|] == LinkOpen
       && s[|s| - |LinkClose|..] == LinkClose
    then
      var body := s[|LinkOpen|..|s| - |LinkClose|];
      match IndexOf(body, '"')
      case None => None
      case Some(q) =>
        if q + 1 < |body| && body[q + 1] == '>' then Some((body[..q], body[q + 2..])) else None
    else None
  }

  /** A link whose URL holds no quote reads back into that URL and text. */
  lemma LinkRoundTrip(url: string, text: string)
    requires '"' !in url
    ensures ParseLink(LinkMarkup(url, text)) == Some((url, text))
  {
    var s := LinkMarkup(url, text);
    assert s[..|LinkOpen|] == LinkOpen;
    assert s[|s| - |LinkClose|..] == LinkClose;
    var body := s[|LinkOpen|..|s| - |LinkClose|];
    assert body == url + "\">" + text;
    var q := IndexOf(body, '"');
    assert body[|url|] == '"';
    assert body[..|url|] == url;
    assert q == Some(|url|);
    assert body[|url| + 2..] == text;
  }

  /** Without escaping, different URLs and texts can give the same anchor. */
  lemma UnescapedLinkIsAmbiguous()
    ensures LinkMarkup("a\">b", "c") == LinkMarkup("a", "b\">c")
  {
  }

  /** A diagnostic never reads as an anchor, so the two results of
      `frame_link` cannot be confused. */
  lemma DiagnosticIsNotALink(title: string, url: string, text: string)
    ensures ParseLink(NonExistentFrameMessage(title)) == None
    ensures NonExistentFrameMessage(title) != LinkMarkup(url, text)
  {
    var m := NonExistentFrameMessage(title);
    assert m[0] == '[';
    assert LinkMarkup(url, text)[0] == '<';
    if |m| >= |LinkOpen| + |LinkClose| {
      assert m[..|LinkOpen|][0] == '[';
    }
  }

  /** Both tags resolve a title the same way: where `frame` draws a frame,
      `frame_link` links to that same frame; where one reports the title
      missing, so does the other, with the same text. */
  lemma TagsResolveAlike(lib: Library, store: seq<Frame>, title: string, context: Context, text: Option<string>)
    ensures Store.First(store, Store.TitleField, title).None? ==>
      FrameTag(lib, store, Title(title), context) == Success(FrameLink(store, Title(title), text))
    ensures Store.First(store, Store.TitleField, title).Some? ==>
      var f := Store.First(store, Store.TitleField, title).value;
      && FrameTag(lib, store, Title(title), context) == FrameTag(lib, store, Ref(f), context)
      && FrameLink(store, Title(title), text) == FrameLink(store, Ref(f), text)
  {
  }
}
