# django-deco frame rendering, modelled in Dafny

django-deco stores pieces of content called *frames*. Each frame has a title, a URL, a format name and a content body. The project models three things:

- **`Frame.draw`** (models.py). With a decorator, it renders the frame's plain, context-free draw inside a named decorator template. Without one, it dispatches on the five format names:
  - `text` is escaped, then paragraphed.
  - `markdown` and `textile` are converted by optional libraries.
  - `html` is returned verbatim.
  - `template` is rendered with `this_frame` and the caller's context.

  Any other format name fails.
- **The `frame` and `frame_link` template tags** (templatetags/deco_tags.py). Each takes a frame or a title. A title resolves to the first stored frame carrying it, and a missing title gives a diagnostic string.
- **The quick helpers** (quick.py). `view` serves the first frame stored under `/` + path, or not-found. `draw` renders the one frame with a title, or gives a diagnostic string.

Modules, one per source file, plus two helper modules:

- `Wrappers` (wrappers.dfy): `Option` and `Result`.
- `Strings` (strings.dfy): Python's `%d` rendering, and the HTML escaping Django's `escape` performs, with its inverse.
- `Models` (models.dfy): formats, `Frame`, context values, errors, `Draw` and `Unicode`.
- `Store` (store.dfy): the stored frames as a sequence in query order, with the ORM's `filter(...)[0]` (`First`) and `get(...)` (`Get`).
- `DecoTags` (deco_tags.dfy): `FrameTag` and `FrameLink`.
- `Quick` (quick.dfy): `View` and `Draw`.

How the model treats the collaborators:

- The text-converting collaborators are function values in a `Library` record passed to `Draw`, so they stay uninterpreted. These are `escape`, `linebreaks`, the Markdown and Textile converters, the template engine and the template loader.
- A converter library that is not installed is `None`.
- Python exceptions become `Result` failures. The source raises `TypeError` both for an unknown format and for a missing library, so the model keeps the exact messages. Lemmas prove the two messages can never be confused.

Two behaviours of the code that the model keeps:

- **The quick `draw` helper looks frames up with `get`, not by first match.** When two frames share the title, `get` raises `MultipleObjectsReturned`, and that error is not caught (quick.py:24-27).
- **A caller's context can shadow `this_frame`.** The caller's context is overlaid on the seeded `this_frame`, so a caller key named `this_frame` wins (models.py:86-87).

## Model

| member | source | states |
|---|---|---|
| `Models.ParseFormat` | models.py:65-90 | a stored name is accepted only if it is the name of the format it is read as |
| `Models.ParseFormatName` | models.py:65-90 | every format's own name is dispatched to that format |
| `Models.FormatChoicesAreTheFormats` | models.py:10-16 | the choices list offers exactly the five names `draw` dispatches on, each with its format's label, and the default `text` is one of them |
| `Models.TemplateContext` | models.py:85-87 | template variables are `this_frame` plus the caller's keys; every caller key keeps its value, and `this_frame` is the frame unless the caller binds that name |
| `Models.Draw` | models.py:55-90 | with or without a decorator, an unknown format fails with the invalid-format message naming it, and a successful draw implies one of the five formats |
| `Models.HtmlIsVerbatim` | models.py:82-83 | an undecorated `html` frame draws as its content unchanged |
| `Models.TextIsEscapedThenParagraphed` | models.py:65-66 | an undecorated `text` frame draws as `linebreaks(escape(content))`: escaping first, paragraphing second |
| `Models.TextHidesMarkup` | models.py:65-66 | with Django's escaping, the string handed to `linebreaks` holds no `<`, `>` or quote, and the content can be recovered from it exactly |
| `Models.InvalidFormatFails` | models.py:90 | a format outside the five fails, decorated or not, and the format can be read back from the error message |
| `Models.InvalidFormatMessageNamesFormat` | models.py:90 | the invalid-format message embeds the offending format name recoverably |
| `Models.MissingLibraryIsNotInvalidFormat` | models.py:68-79 | a missing-library message never equals, nor parses as, an invalid-format message |
| `Models.MarkdownNeedsItsLibrary` | models.py:68-73 | a `markdown` frame without the library fails with the Markdown message, decorated or not; with it, the frame draws as the converter's output |
| `Models.TextileNeedsItsLibrary` | models.py:75-80 | a `textile` frame without the library fails with the Textile message, decorated or not; with it, the frame draws as the converter's output |
| `Models.TemplateSeesThisFrameAndContext` | models.py:85-88 | a `template` frame is its own content rendered with variables in which the caller's keys win and `this_frame` is the frame unless shadowed |
| `Models.DecoratorWrapsPlainDraw` | models.py:56-63 | a decorated draw is the decorator template rendered with the single variable `deco` = {content: undecorated context-free draw, title, url}; a failing inner draw fails it identically |
| `Models.DecoratorIgnoresContext` | models.py:56-63 | with a decorator, the caller's context has no effect on the result |
| `Models.EmptyDecoratorIsAbsent` | models.py:56 | an empty decorator name behaves exactly like no decorator |
| `Models.PlainDrawNeverLoadsTemplates` | models.py:65-90 | an undecorated draw never uses the template loader, so decoration goes one level deep |
| `Models.Unicode` | models.py:92-96 | the display name is the title when it is non-empty; otherwise it is exactly `[no title; id=N]` with N the id in `%d` form, from which the id is recovered; an unsaved untitled frame fails |
| `Models.UntitledLabelNamesId` | models.py:96 | `[no title; id=N]` yields N back |
| `Strings.HtmlEscape` | models.py:66 | escaped text contains no `<`, `>`, `"` or `'` and is at least as long as the input |
| `Strings.UnescapeEscape` | models.py:66 | unescaping escaped text gives back the original |
| `Strings.IntDecimalRoundTrip` | models.py:96 | `%d` rendering of any integer, negative ones included, reads back to that integer |
| `Strings.IntToDecimal` | models.py:96 | the `%d` rendering has a minus sign exactly for negative numbers, then digits with no leading zero |
| `Store.FirstIndex` | templatetags/deco_tags.py:25 | the result is the position of the earliest frame whose field equals the value, and it is absent exactly when none does |
| `Store.Filter` | templatetags/deco_tags.py:25 | the filter holds only stored frames that match, holds every stored match, has as many entries as there are matching positions, and is empty exactly when nothing matches |
| `Store.FilterKeepsOrder` | templatetags/deco_tags.py:25 | the filter lists the matches in store order, one per position: the match at position `i` is entry number *m*, where *m* is the number of matches before `i` |
| `Store.FilterHeadIsFirstMatch` | templatetags/deco_tags.py:25 | the head of the filter is the earliest match |
| `Store.First` | quick.py:15 | `filter(...)[0]` is absent exactly when nothing matches, and otherwise is the earliest match |
| `Store.Get` | quick.py:25 | `get` reports does-not-exist exactly when nothing matches and finds a frame exactly when one position matches, that frame being the only match; otherwise it reports the number of matching frames, at least two |
| `Store.GetAgreesWithFirst` | quick.py:25 | where `get` finds a frame, `filter(...)[0]` finds the same one |
| `Store.GetFindsUniqueMatch` | quick.py:25 | a frame at the only matching position is what `get` returns |
| `Store.GetRejectsTwoMatches` | quick.py:25 | two matching positions make `get` raise `MultipleObjectsReturned` |
| `DecoTags.FrameTag` | templatetags/deco_tags.py:23-28 | a frame is drawn with the tag's context and no decorator; a title draws the first frame with that exact title the same way, or gives exactly `[deco error: non-existent frame "<title>"]` |
| `DecoTags.DiagnosticNamesTitle` | templatetags/deco_tags.py:27 | the missing-frame diagnostic embeds the title recoverably |
| `DecoTags.FrameLink` | templatetags/deco_tags.py:44-51 | resolves the reference like `frame` and returns the same diagnostic on a miss; otherwise `<a href="url">text</a>`, with the frame's title as text when none is given |
| `DecoTags.LinkRoundTrip` | templatetags/deco_tags.py:51 | a link whose URL holds no quote reads back to exactly its URL and text |
| `DecoTags.UnescapedLinkIsAmbiguous` | templatetags/deco_tags.py:51 | because nothing is escaped, two different URL and text pairs can produce the same anchor |
| `DecoTags.DiagnosticIsNotALink` | templatetags/deco_tags.py:48-51 | a missing-frame diagnostic never equals or parses as an anchor |
| `DecoTags.TagsResolveAlike` | templatetags/deco_tags.py:23-51 | for a title, both tags act on the same first-matching frame, and on a miss both give the same diagnostic |
| `Quick.View` | quick.py:14-17 | not-found exactly when no frame has URL `/` + path; otherwise the first such frame's draw with the view's decorator and context, whose errors propagate |
| `Quick.Draw` | quick.py:24-27 | a missing title gives exactly `[view with title "<title>" does not exist]`; a unique title gives that frame's draw with the given decorator and context; two frames with the title fail with `MultipleObjectsReturned` |
| `Quick.DrawAgreesWithFrameTag` | quick.py:25 | for a unique title, undecorated `draw(title)` equals the `frame` tag on that title |
| `Quick.ViewAgreesWithDraw` | quick.py:15 | serving the path of a frame with a unique title gives what `draw(title)` gives, body or error |
| `Quick.MissingViewIsNotMissingFrame` | quick.py:27 | the quick helper's diagnostic never equals the tags' diagnostic |

## Left out

- The template engine (`Template(...).render`) and the template loader (`render_to_string`) are uninterpreted. This leaves out `{% if %}`, `{% for %}`, tag loading, and the recursive `1[2[34]5]` rendering of a frame that embeds itself, which depends entirely on the engine.
- There is no cycle detection for a template frame that renders itself. That recursion happens inside the abstract engine, so the model neither shows nor rules it out.
- The Markdown and Textile converters and `linebreaks` are uninterpreted. `smart_str`/`force_unicode` are taken as the identity, because encoding is not modelled.
- `escape` is a `Library` field. Only `Models.TextHidesMarkup` assumes it is Django's escaping (`Strings.HtmlEscape`).
- `mark_safe` is left out. It only tags a string as pre-escaped and has no logic of its own.
- Persistence is left out: the ORM, `save()`, the `create_date`/`edit_date` timestamps, `max_length` and the `Admin` class. The store is an immutable sequence in the order the query returns frames. Every helper is a pure function of it, so none can change it.
- HTTP plumbing is left out: the `request` argument, the `HttpResponse` object and the content of the 404 page. A view's outcome is `Ok(body)` or `NotFound`.
- Quick.View: `view` catches every `IndexError`, including one raised inside the draw. Such an error would become a not-found page. The model turns only an empty lookup into `NotFound`, because errors raised inside the engine are uninterpreted.
- DecoTags.FrameTag: a Python value without a `draw` attribute is taken as a title string. The model does not cover non-string values, or `str()` failing on a non-ASCII title under Python 2.
- DecoTags.FrameLink: the same `str()` call builds the diagnostic. For a non-ASCII title that no frame carries, Python 2 raises `UnicodeEncodeError`, but the model returns the diagnostic, because text encoding is not modelled.
- Quick.Draw: `str()` builds the diagnostic here too, so the same non-ASCII `UnicodeEncodeError` case is not modelled. Also, the `try` wraps the draw itself. An `ObjectDoesNotExist` raised inside the draw, from within the template engine, would become the `[view with title "…" does not exist]` diagnostic. The model returns the draw's error unchanged, because errors raised inside the engine are uninterpreted.
- Models.Unicode: the `TypeError` text for an unsaved untitled frame is Python's usual message for `int(None)`.
- Store.Get: `MultipleObjectsReturned` carries the number of matching frames, not Django's message text.
- Models.TemplateContext: the source pushes the caller's dict by reference onto the template `Context` (models.py:87). When no context is given, that dict is the one mutable `{}` default that `draw` (models.py:55), the `frame` tag (templatetags/deco_tags.py:6), `view` (quick.py:7) and the quick `draw` (quick.py:19) each share across calls. A template tag that assigns a top-level variable (`{% cycle ... as x %}`, `{% regroup ... as x %}`) therefore writes into that dict, and the value shows up in later draws that use the same dict. This includes the inner undecorated draw of every decorated frame (models.py:59). The model overlays the caller's context onto a fresh immutable map and treats the engine as a pure function, so it does not capture this aliasing.
