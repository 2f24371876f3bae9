/** The Frame entity and its `draw` operation (models.py).

    A frame holds a title, a URL, a format name and a content body. Drawing it
    either wraps a plain, context-free draw of the same frame in a named
    decorator template, or dispatches on the format name. Everything that
    actually converts text (escaping, paragraphing, Markdown, Textile and the
    template engine) is a collaborator handed in as a `Library` value. */
module Models {

  import opened Wrappers
  import Strings

  // ---------------------------------------------------------------------------
  // Formats
  // ---------------------------------------------------------------------------

  /** The closed set of formats a frame can be written in. */
  datatype Format = Text | Markdown | Textile | Html | Template

  /** The name a frame stores for each format. */
  function FormatName(fmt: Format): string
  {
    match fmt
    case Text => "text"
    case Markdown => "markdown"
    case Textile => "textile"
    case Html => "html"
    case Template => "template"
  }

  /** The format a stored name stands for, if it stands for one. */
  function ParseFormat(name: string): (r: Option<Format>)
    ensures r.Some? ==> FormatName(r.value) == name
  {
    if name == "text" then Some(Text)
    else if name == "markdown" then Some(Markdown)
    else if name == "textile" then Some(Textile)
    else if name == "html" then Some(Html)
    else if name == "template" then Some(Template)
    else None
  }

  lemma ParseFormatName(fmt: Format)
    ensures ParseFormat(FormatName(fmt)) == Some(fmt)
  {
  }

  /** The human-readable label each format is offered under. */
  function FormatLabel(fmt: Format): string
  {
    match fmt
    case Text => "Plain Text"
    case Markdown => "Markdown"
    case Textile => "Textile"
    case Html => "HTML"
    case Template => "Django template"
  }

  /** The choices list of the `format` field: stored name to label. */
  const FormatChoices: map<string, string> := map[
    "text" := "Plain Text",
    "markdown" := "Markdown",
    "textile" := "Textile",
    "html" := "HTML",
    "template" := "Django template"
  ]

  /** A new frame's format when none is given. */
  const DefaultFormat: string := "text"

  /** The names offered as choices are exactly the names `draw` dispatches on,
      each with its format's label. */
  lemma FormatChoicesAreTheFormats(name: string)
    ensures ParseFormat(DefaultFormat) == Some(Text)
    ensures name in FormatChoices <==> ParseFormat(name).Some?
    ensures name in FormatChoices ==> FormatChoices[name] == FormatLabel(ParseFormat(name).value)
  {
  }

  // ---------------------------------------------------------------------------
  // Entities and values
  // ---------------------------------------------------------------------------

  /** A stored frame. `id` is None until the frame has been saved; `format` is
      kept as the raw stored name, which nothing validates on save. */
  datatype Frame = Frame(id: Option<int>, title: string, url: string, format: string, content: string)

  /** The values a template context can hold. */
  datatype Value =
    | Str(s: string)
    | Int(i: int)
    | Bool(b: bool)
    | FrameValue(frame: Frame)
    | List(items: seq<Value>)
    | Dict(entries: map<string, Value>)

  /** Variables handed to a template, by name. */
  type Context = map<string, Value>

  /** What a draw can raise. The source raises TypeError for both an unknown
      format and a missing converter library, telling them apart by message. */
  datatype Error =
    | TypeError(message: string)
    | MultipleObjectsReturned(count: nat)
    | EngineError(message: string)

  /** The text-converting collaborators of `draw`. A converter library that is
      not installed is None. `renderTemplate` renders a template given as source
      text; `renderToString` loads a template by name and renders it. */
  datatype Library = Library(
    escape: string -> string,
    linebreaks: string -> string,
    markdown: Option<string -> string>,
    textile: Option<string -> string>,
    renderTemplate: (string, Context) -> Result<string, Error>,
    renderToString: (string, Context) -> Result<string, Error>)

  // ---------------------------------------------------------------------------
  // Error messages
  // ---------------------------------------------------------------------------

  const InvalidFormatPrefix: string := "frame format is invalid: \""

  function InvalidFormatMessage(format: string): string
  {
    InvalidFormatPrefix + format + "\""
  }

  function MissingLibraryMessage(library: string): string
  {
    "Deco error: The Python " + library + " library isn't installed."
  }

  /** The format name an invalid-format message was raised for, if it is one. */
  function FormatOfMessage(message: string): Option<string>
  {
    if |message| > |InvalidFormatPrefix|
       && message[..|InvalidFormatPrefix|] == InvalidFormatPrefix
       && message[|message| - 1] == '"'
    then Some(message[|InvalidFormatPrefix|..|message| - 1])
    else None
  }

  /** The invalid-format message carries the offending name, recoverably. */
  lemma InvalidFormatMessageNamesFormat(format: string)
    ensures FormatOfMessage(InvalidFormatMessage(format)) == Some(format)
  {
  }

  /** A missing-library message is never mistaken for an invalid-format one. */
  lemma MissingLibraryIsNotInvalidFormat(library: string, format: string)
    ensures FormatOfMessage(MissingLibraryMessage(library)) == None
    ensures MissingLibraryMessage(library) != InvalidFormatMessage(format)
  {
  }

  // ---------------------------------------------------------------------------
  // draw
  // ---------------------------------------------------------------------------

  /** Python truthiness of the decorator argument: None and "" mean no decorator. */
  predicate IsDecorator(decorator: Option<string>) {
    decorator.Some? && decorator.value != ""
  }

  /** The single variable a decorator template receives. */
  function DecoratorContext(f: Frame, inner: string): Context
  {
    map["deco" := Dict(map["content" := Str(inner), "title" := Str(f.title), "url" := Str(f.url)])]
  }

  /** The variables of a template-format frame: `this_frame` first, then every
      caller entry on top of it. */
  function TemplateContext(f: Frame, context: Context): (vars: Context)
    ensures vars.Keys == context.Keys + {"this_frame"}
    ensures forall k :: k in context ==> vars[k] == context[k]
    ensures "this_frame" !in context ==> vars["this_frame"] == FrameValue(f)
  {
    map["this_frame" := FrameValue(f)] + context
  }

  /** Renders a frame. A decorator renders the frame's own undecorated,
      context-free draw inside the named template; otherwise the stored format
      decides. Whatever happens, an unknown format is an invalid-format error,
      and a successful draw means the format was one of the five. */
  function Draw(lib: Library, f: Frame, decorator: Option<string>, context: Context): (r: Result<string, Error>)
    ensures ParseFormat(f.format).None? ==> r == Failure(TypeError(InvalidFormatMessage(f.format)))
    ensures r.Success? ==> ParseFormat(f.format).Some?
    decreases if IsDecorator(decorator) then 1 else 0
  {
    if IsDecorator(decorator) then
      match Draw(lib, f, None, map[])
      case Failure(e) => Failure(e)
      case Success(inner) => lib.renderToString(decorator.value, DecoratorContext(f, inner))
    else
      match ParseFormat(f.format)
      case Some(Text) => Success(lib.linebreaks(lib.escape(f.content)))
      case Some(Markdown) =>
        if lib.markdown.None? then Failure(TypeError(MissingLibraryMessage("markdown")))
        else Success(lib.markdown.value(f.content))
      case Some(Textile) =>
        if lib.textile.None? then Failure(TypeError(MissingLibraryMessage("textile")))
        else Success(lib.textile.value(f.content))
      case Some(Html) => Success(f.content)
      case Some(Template) => lib.renderTemplate(f.content, TemplateContext(f, context))
      case None => Failure(TypeError(InvalidFormatMessage(f.format)))
  }

  /** An HTML frame is its content, verbatim. */
  lemma HtmlIsVerbatim(lib: Library, f: Frame, context: Context)
    requires f.format == "html"
    ensures Draw(lib, f, None, context) == Success(f.content)
  {
  }

  /** A text frame is escaped first and paragraphed second. */
  lemma TextIsEscapedThenParagraphed(lib: Library, f: Frame, context: Context)
    requires f.format == "text"
    ensures Draw(lib, f, None, context) == Success(lib.linebreaks(lib.escape(f.content)))
  {
  }

  /** With Django's own escaping, what reaches `linebreaks` holds no markup
      character and still determines the content exactly. */
  lemma TextHidesMarkup(lib: Library, f: Frame, context: Context)
    requires f.format == "text"
    requires forall s :: lib.escape(s) == Strings.HtmlEscape(s)
    ensures Draw(lib, f, None, context) == Success(lib.linebreaks(Strings.HtmlEscape(f.content)))
    ensures Strings.MarkupFree(Strings.HtmlEscape(f.content))
    ensures Strings.HtmlUnescape(Strings.HtmlEscape(f.content)) == f.content
  {
    Strings.UnescapeEscape(f.content);
  }

  /** A format outside the five fails with a message naming it, decorated or not. */
  lemma InvalidFormatFails(lib: Library, f: Frame, decorator: Option<string>, context: Context)
    requires ParseFormat(f.format).None?
    ensures Draw(lib, f, decorator, context) == Failure(TypeError(InvalidFormatMessage(f.format)))
    ensures FormatOfMessage(Draw(lib, f, decorator, context).error.message) == Some(f.format)
  {
  }

  /** A Markdown frame without the Markdown library fails with its own message,
      decorated or not; with the library it is the converter's output. */
  lemma MarkdownNeedsItsLibrary(lib: Library, f: Frame, decorator: Option<string>, context: Context)
    requires f.format == "markdown"
    ensures lib.markdown.None? ==>
      Draw(lib, f, decorator, context) == Failure(TypeError(MissingLibraryMessage("markdown")))
    ensures lib.markdown.Some? ==> Draw(lib, f, None, context) == Success(lib.markdown.value(f.content))
  {
  }

  /** The same for Textile. */
  lemma TextileNeedsItsLibrary(lib: Library, f: Frame, decorator: Option<string>, context: Context)
    requires f.format == "textile"
    ensures lib.textile.None? ==>
      Draw(lib, f, decorator, context) == Failure(TypeError(MissingLibraryMessage("textile")))
    ensures lib.textile.Some? ==> Draw(lib, f, None, context) == Success(lib.textile.value(f.content))
  {
  }

  /** A template frame is rendered from its own content with `this_frame`
      bound to it, unless the caller's context binds that name itself, and
      with every caller variable visible as given. */
  lemma TemplateSeesThisFrameAndContext(lib: Library, f: Frame, context: Context)
    requires f.format == "template"
    ensures exists vars: Context ::
      && Draw(lib, f, None, context) == lib.renderTemplate(f.content, vars)
      && vars.Keys == context.Keys + {"this_frame"}
      && (forall k :: k in context ==> vars[k] == context[k])
      && ("this_frame" !in context ==> vars["this_frame"] == FrameValue(f))
  {
  }

  /** A decorated draw renders the decorator template with exactly one
      variable, `deco`, holding the plain draw of the frame, its title and its
      URL; a failing plain draw fails the decorated one the same way. */
  lemma DecoratorWrapsPlainDraw(lib: Library, f: Frame, decorator: Option<string>, context: Context)
    requires IsDecorator(decorator)
    ensures Draw(lib, f, None, map[]).Failure? ==> Draw(lib, f, decorator, context) == Draw(lib, f, None, map[])
    ensures Draw(lib, f, None, map[]).Success? ==>
      Draw(lib, f, decorator, context) ==
        lib.renderToString(decorator.value,
          map["deco" := Dict(map["content" := Str(Draw(lib, f, None, map[]).value),
                                 "title" := Str(f.title),
                                 "url" := Str(f.url)])])
  {
  }

  /** Once a decorator is given, the caller's context plays no part. */
  lemma DecoratorIgnoresContext(lib: Library, f: Frame, decorator: Option<string>, c1: Context, c2: Context)
    requires IsDecorator(decorator)
    ensures Draw(lib, f, decorator, c1) == Draw(lib, f, decorator, c2)
  {
  }

  /** None and the empty name both mean "no decorator". */
  lemma EmptyDecoratorIsAbsent(lib: Library, f: Frame, context: Context)
    ensures Draw(lib, f, Some(""), context) == Draw(lib, f, None, context)
  {
  }

  /** Decoration is one level deep: an undecorated draw never loads a
      template by name, so two libraries that differ only there agree on it. */
  lemma PlainDrawNeverLoadsTemplates(lib1: Library, lib2: Library, f: Frame, context: Context)
    requires lib1.escape == lib2.escape && lib1.linebreaks == lib2.linebreaks
    requires lib1.markdown == lib2.markdown && lib1.textile == lib2.textile
    requires lib1.renderTemplate == lib2.renderTemplate
    ensures Draw(lib1, f, None, context) == Draw(lib2, f, None, context)
  {
  }

  // ---------------------------------------------------------------------------
  // __unicode__
  // ---------------------------------------------------------------------------

  const UntitledPrefix: string := "[no title; id="

  /** How a frame without a title names itself. */
  function UntitledLabel(id: int): string
  {
    UntitledPrefix + Strings.IntToDecimal(id) + "]"
  }

  /** The id an untitled label was made from, if it is one. */
  function IdOfUntitledLabel(name: string): Option<int>
  {
    if |name| > |UntitledPrefix| && name[..|UntitledPrefix|] == UntitledPrefix && name[|name| - 1] == ']'
    then
      match Strings.DecimalToInt(name[|UntitledPrefix|..|name| - 1])
      case Some(n) => Some(n)
      case None => None
    else None
  }

  /** A frame's display name: its title when it has one, otherwise a label
      carrying its id. `int(None)` fails for an unsaved untitled frame. */
  function Unicode(f: Frame): (r: Result<string, Error>)
    ensures f.title != "" ==> r == Success(f.title)
    ensures f.title == "" ==> (r.Success? <==> f.id.Some?)
    ensures f.title == "" && f.id.Some? ==> r == Success(UntitledLabel(f.id.value))
    ensures f.title == "" && r.Success? ==> IdOfUntitledLabel(r.value) == f.id
  {
    if f.title != "" then Success(f.title)
    else match f.id
      case Some(n) =>
        UntitledLabelNamesId(n);
        Success(UntitledLabel(n))
      case None => Failure(TypeError("int() argument must be a string or a number, not 'NoneType'"))
  }

  /** The untitled label carries the frame's id, recoverably. */
  lemma UntitledLabelNamesId(id: int)
    ensures IdOfUntitledLabel(UntitledLabel(id)) == Some(id)
  {
    var name := UntitledLabel(id);
    assert name[..|UntitledPrefix|] == UntitledPrefix;
    assert name[|UntitledPrefix|..|name| - 1] == Strings.IntToDecimal(id);
    Strings.IntDecimalRoundTrip(id);
  }
}
