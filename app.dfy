/** The app shell: three state cells (`screen`, `result`, `loading`) that the
    home button, the upload card's analyse callback and the result card's reset
    button update, and the guards that decide which panel is rendered. */
module App {
  import opened Js
  import opened ResultCard

  datatype Screen = Home | Upload | Loading | Result

  /** How the awaited request ended: the response body, or a thrown error with its message. */
  datatype Outcome = Ok(response: Response) | Threw(message: string)

  /** What `handleAnalyze` stores for an outcome: the response itself, or
      `{success: false, error: e.message}` for a thrown error. */
  function Stored(o: Outcome): (r: Response)
    ensures o.Ok? ==> r == o.response
    ensures o.Threw? ==> !r.success && r.result.Absent? && r.error == Present(o.message)
  {
    match o
    case Ok(res) => res
    case Threw(m) => Response(false, Absent, Present(m))
  }

  /** A thrown error always produces a failure card carrying its message, or
      "Unknown error" when the message is empty. */
  lemma ThrownErrorShowsFailure(m: string)
    ensures Card(Some(Stored(Threw(m)))) == FailureCard(if m == "" then "Unknown error" else m)
  {
  }

  class AppState {
    var screen: Screen
    var result: Option<Response>
    var loading: bool

    /** The states the app can reach: the loader runs exactly on the loading
        screen, there is no result before the first analysis or while one is in
        flight, and the result screen always has one. */
    ghost predicate Valid()
      reads this
    {
      (loading <==> screen == Loading) &&
      (screen == Home || screen == Loading ==> result == None) &&
      (screen == Result ==> result.Some?)
    }

    /** The home page is rendered on the home screen, before any analysis. */
    predicate ShowsHome()
      reads this
      requires Valid()
      ensures ShowsHome() ==> result == None && !loading
    {
      screen == Home
    }

    /** The upload card, the only holder of the analyse callback, is rendered
        on the upload screen, and never while a request is in flight. */
    predicate ShowsUpload()
      reads this
      requires Valid()
      ensures ShowsUpload() ==> !loading
    {
      screen == Upload
    }

    /** The loader overlay is rendered exactly while a request is in flight,
        which is exactly the loading screen, with no result held. */
    predicate ShowsLoader()
      reads this
      requires Valid()
      ensures ShowsLoader() <==> screen == Loading
      ensures ShowsLoader() ==> result == None
    {
      loading
    }

    /** The result card is rendered only on the result screen and never over the loader. */
    predicate ShowsResult()
      reads this
      requires Valid()
      ensures ShowsResult() ==> result.Some?
    {
      screen == Result && !loading
    }

    /** The card on screen, if the result card is rendered. */
    function ShownCard(): (c: Option<CardView>)
      reads this
      requires Valid()
      ensures c.Some? <==> ShowsResult()
      ensures c.Some? ==> c.value != NoCard
    {
      if ShowsResult() then Some(Card(result)) else None
    }

    constructor ()
      ensures Valid()
      ensures screen == Home && result == None && !loading
    {
      screen, result, loading := Home, None, false;
    }

    /** `onStart`: the home button moves to the upload screen. It exists only
        while the home screen is rendered. */
    method Start()
      requires Valid() && ShowsHome()
      modifies this
      ensures Valid()
      ensures screen == Upload && result == old(result) && loading == old(loading)
    {
      screen := Upload;
    }

    /** `onReset`: the result card's button returns to the upload screen and
        keeps the last result. The button exists only while the result card is
        rendered and did not throw while rendering. */
    method Reset()
      requires Valid() && ShowsResult() && Card(result) != Crashed
      modifies this
      ensures Valid()
      ensures screen == Upload && result == old(result) && loading == old(loading)
    {
      screen := Upload;
    }

    /** The part of `handleAnalyze` before the request is awaited. The callback
        is reachable only from the upload card, so no second request can start
        while one is in flight. */
    method Submit()
      requires Valid() && ShowsUpload()
      modifies this
      ensures Valid()
      ensures loading && screen == Loading && result == None
      ensures ShowsLoader() && !ShowsHome() && !ShowsUpload() && !ShowsResult()
    {
      loading := true;
      screen := Loading;
      result := None;
    }

    /** The part of `handleAnalyze` after the request settles, in both branches of
        the try/catch, followed by clearing the loading flag. */
    method Settle(o: Outcome)
      requires Valid() && screen == Loading
      modifies this
      ensures Valid()
      ensures result == Some(Stored(o)) && screen == Result && !loading
    {
      match o {
        case Ok(res) =>
          result := Some(res);
          screen := Result;
        case Threw(m) =>
          result := Some(Response(false, Absent, Present(m)));
          screen := Result;
      }
      loading := false;
    }

    /** `handleAnalyze` with the awaited request's outcome given: from the upload
        card it ends on the result screen with the loader gone and the card for
        what was stored. */
    method Analyze(o: Outcome)
      requires Valid() && ShowsUpload()
      modifies this
      ensures Valid()
      ensures result == Some(Stored(o)) && screen == Result && !loading
      ensures ShowsResult() && ShownCard() == Some(Card(Some(Stored(o))))
    {
      Submit();
      Settle(o);
    }
  }

  /** A run through the app: start, submit a file whose request throws, see the
      failure, reset, submit again and see the service's own failure message. */
  method Session(m: string)
  {
    var app := new AppState();
    app.Start();
    assert app.ShowsUpload();
    app.Analyze(Threw(m));
    assert app.ShownCard() == Some(FailureCard(ErrorText(Present(m))));
    app.Reset();
    assert app.ShowsUpload() && app.result == Some(Stored(Threw(m)));
    app.Analyze(Ok(Response(false, Null, Present("file too large"))));
    assert app.ShownCard() == Some(FailureCard("file too large"));
  }
}
