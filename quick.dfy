/** The two quick helpers (quick.py): `view` serves the frame stored under a
    request path, and `draw` renders the frame with a given title. */
module Quick {

  import opened Wrappers
  import Models
  import Store
  import DecoTags

  /** The outcome of serving a path: the page body, or the standard not-found page. */
  datatype Response = Ok(body: string) | NotFound

  /** `view(request, url, decorator, context)`: the path arrives without its
      leading slash and is looked up with one. The first frame stored under it
      is drawn with the view's decorator and context; no frame means not found;
      a failing draw fails the view with the same error. */
  function View(lib: Models.Library, store: seq<Models.Frame>, url: string,
                decorator: Option<string>, context: Models.Context): (r: Result<Response, Models.Error>)
    ensures r == Success(NotFound) <==> Store.NoMatch(store, Store.UrlField, "/" + url)
    ensures !Store.NoMatch(store, Store.UrlField, "/" + url) ==>
      var f := store[Store.FirstIndex(store, Store.UrlField, "/" + url).value];
      && (Models.Draw(lib, f, decorator, context).Success? ==>
            r == Success(Ok(Models.Draw(lib, f, decorator, context).value)))
      && (Models.Draw(lib, f, decorator, context).Failure? ==>
            r == Failure(Models.Draw(lib, f, decorator, context).error))
  {
    match Store.First(store, Store.UrlField, "/" + url)
    case None => Success(NotFound)
    case Some(f) =>
      match Models.Draw(lib, f, decorator, context)
      case Success(body) => Success(Ok(body))
      case Failure(e) => Failure(e)
  }

  const MissingViewPrefix: string := "[view with title \""
  const MissingViewSuffix: string := "\" does not exist]"

  /** The diagnostic `draw` gives for a title no frame carries. */
  function MissingViewMessage(title: string): string
  {
    MissingViewPrefix + title + MissingViewSuffix
  }

  /** `draw(title, decorator, context)`: the one frame with exactly that title,
      drawn with the given decorator and context. Only the absence of such a
      frame is caught; two frames with the title, and every draw error, reach
      the caller. */
  function Draw(lib: Models.Library, store: seq<Models.Frame>, title: string,
                decorator: Option<string>, context: Models.Context): (r: Result<string, Models.Error>)
    ensures Store.NoMatch(store, Store.TitleField, title) ==> r == Success(MissingViewMessage(title))
    ensures forall k :: Store.IsOnlyMatch(store, Store.TitleField, title, k) ==>
      r == Models.Draw(lib, store[k], decorator, context)
    ensures forall i, j :: Store.AreTwoMatches(store, Store.TitleField, title, i, j) ==>
      r.Failure? && r.error.MultipleObjectsReturned?
  {
    assert forall k :: Store.IsOnlyMatch(store, Store.TitleField, title, k) ==>
      Store.Get(store, Store.TitleField, title) == Store.Found(store[k]) by {
      forall k | Store.IsOnlyMatch(store, Store.TitleField, title, k) {
        Store.GetFindsUniqueMatch(store, Store.TitleField, title, k);
      }
    }
    assert forall i, j :: Store.AreTwoMatches(store, Store.TitleField, title, i, j) ==>
      Store.Get(store, Store.TitleField, title).MultipleFound? by {
      forall i, j | Store.AreTwoMatches(store, Store.TitleField, title, i, j) {
        Store.GetRejectsTwoMatches(store, Store.TitleField, title, i, j);
      }
    }
    match Store.Get(store, Store.TitleField, title)
    case Found(f) => Models.Draw(lib, f, decorator, context)
    case DoesNotExist => Success(MissingViewMessage(title))
    case MultipleFound(n) => Failure(Models.MultipleObjectsReturned(n))
  }

  /** For a title exactly one frame carries, the quick helper and the `frame`
      tag draw the same thing when no decorator is given. */
  lemma DrawAgreesWithFrameTag(lib: Models.Library, store: seq<Models.Frame>, title: string,
                               k: nat, context: Models.Context)
    requires Store.IsOnlyMatch(store, Store.TitleField, title, k)
    ensures Draw(lib, store, title, None, context) == DecoTags.FrameTag(lib, store, DecoTags.Title(title), context)
  {
  }

  /** Serving the path of a frame whose title is unique gives the page that
      drawing it by title gives, with the same decorator and context. */
  lemma ViewAgreesWithDraw(lib: Models.Library, store: seq<Models.Frame>, url: string, k: nat,
                           decorator: Option<string>, context: Models.Context)
    requires Store.IsFirstMatch(store, Store.UrlField, "/" + url, k)
    requires Store.IsOnlyMatch(store, Store.TitleField, store[k].title, k)
    ensures Draw(lib, store, store[k].title, decorator, context).Success? ==>
      View(lib, store, url, decorator, context) == Success(Ok(Draw(lib, store, store[k].title, decorator, context).value))
    ensures Draw(lib, store, store[k].title, decorator, context).Failure? ==>
      View(lib, store, url, decorator, context) == Failure(Draw(lib, store, store[k].title, decorator, context).error)
  {
  }

  /** The quick helper's diagnostic is never the tags' diagnostic. */
  lemma MissingViewIsNotMissingFrame(title: string, other: string)
    ensures MissingViewMessage(title) != DecoTags.NonExistentFrameMessage(other)
  {
    assert MissingViewMessage(title)[1] == 'v';
    assert DecoTags.NonExistentFrameMessage(other)[1] == 'd';
  }
}
