/** The redirect container and the redirect component under
    components/redirect/: resolve a short code through the gateway, then leave
    for the long url, or show why not. */
module ComponentsRedirect {
  import opened Common
  import opened Errors

  const HomePath: string := "/"

  /** Where `handleShortCode` stands. */
  datatype Stage =
    | Created
    | LookingUp
    | Waiting(target: string)    // the 5000 ms pause before leaving
    | Navigated(target: string)  // `window.location.href` has been assigned
    | Failed

  /** components/redirect/redirect.container.ts. */
  class RedirectContainer {
    var errorMessage: Option<string>
    var isRedirecting: bool
    var stage: Stage
    /** The short codes handed to the gateway's lookup. */
    ghost var lookups: seq<string>
    /** The urls assigned to `window.location.href`, in order. */
    ghost var navigations: seq<string>

    /** `isRedirecting` drops exactly when the resolution fails, which is also
        exactly when there is a (non-empty) error message; a navigation target
        always carries an http(s) scheme. */
    ghost predicate Valid()
      reads this
    {
      && (isRedirecting <==> !stage.Failed?)
      && (errorMessage.Some? <==> stage.Failed?)
      && (errorMessage.Some? ==> errorMessage.value != "")
      && ((stage.Waiting? || stage.Navigated?) ==> HasHttpScheme(stage.target))
      && (stage.Created? <==> lookups == [])
    }

    constructor ()
      ensures Valid()
      ensures errorMessage == None && isRedirecting && stage == Created
      ensures lookups == [] && navigations == []
    {
      errorMessage, isRedirecting, stage := None, true, Created;
      lookups, navigations := [], [];
    }

    /** `ngOnInit`: the code taken from the route is looked up. */
    method NgOnInit(shortCode: string)
      requires Valid() && stage == Created
      modifies this`stage, this`lookups
      ensures Valid()
      ensures stage == LookingUp && lookups == [shortCode]
    {
      stage := LookingUp;
      lookups := lookups + [shortCode];
    }

    /** The lookup has settled. A non-empty long url is normalised by `addHttps`
        and held for the pause; an empty one is thrown as `new Error(...)`, which
        has no `error` key and so yields the generic message; a rejected lookup
        yields the extracted message. A failure lowers `isRedirecting`. */
    method LookupResolved(reply: Reply<Option<string>>)
      requires Valid() && stage == LookingUp
      modifies this`errorMessage, this`isRedirecting, this`stage
      ensures Valid()
      ensures reply.Resolved? && Truthy(reply.value) ==>
                stage == Waiting(AddHttps(reply.value.value)) && isRedirecting && errorMessage == None
      ensures reply.Resolved? && !Truthy(reply.value) ==>
                stage == Failed && !isRedirecting && errorMessage == Some(UnexpectedError)
      ensures reply.Rejected? ==>
                stage == Failed && !isRedirecting && errorMessage == Some(ExtractErrorMessage(reply.error))
    {
      var caught: Option<Thrown> := None;
      match reply {
        case Resolved(longUrl) =>
          if !Truthy(longUrl) {
            caught := Some(PlainObject);
          } else {
            stage := Waiting(AddHttps(longUrl.value));
          }
        case Rejected(e) =>
          caught := Some(e);
      }
      if caught.Some? {
        errorMessage := Some(ExtractErrorMessage(caught.value));
        isRedirecting := false;
        stage := Failed;
      }
    }

    /** The 5000 ms pause is over and the normalised url is assigned to
        `window.location.href`. `hrefAccepted` says whether the browser can parse
        it. When it cannot, the assignment throws an exception object without an
        `error` key. The `catch` then sets the generic message and lowers
        `isRedirecting`. */
    method DelayElapsed(hrefAccepted: bool)
      requires Valid() && stage.Waiting?
      modifies this`stage, this`navigations, this`errorMessage, this`isRedirecting
      ensures Valid()
      ensures hrefAccepted ==>
                && stage == Navigated(old(stage).target) && HasHttpScheme(stage.target)
                && navigations == old(navigations) + [stage.target]
                && errorMessage == None && isRedirecting
      ensures !hrefAccepted ==>
                && stage == Failed && navigations == old(navigations)
                && errorMessage == Some(UnexpectedError) && !isRedirecting
    {
      if hrefAccepted {
        stage := Navigated(stage.target);
        navigations := navigations + [stage.target];
      } else {
        errorMessage := Some(ExtractErrorMessage(PlainObject));
        isRedirecting := false;
        stage := Failed;
      }
    }

    /** `onGoHomeRequested`: the browser is sent to the site's root, whatever the
        lookup's state. */
    method OnGoHomeRequested()
      requires Valid()
      modifies this`navigations
      ensures Valid()
      ensures navigations == old(navigations) + [HomePath]
    {
      navigations := navigations + [HomePath];
    }
  }

  const InvalidShortUrl: string := "Invalid short URL"
  const ShortUrlNotFound: string := "Short URL not found."
  const RedirectingText: string := "Redirecting..."

  /** components/redirect/redirect.component.ts: one handler run per emission of
      the route's parameters. */
  class RedirectComponent {
    var errorMessage: Option<string>
    /** Lookups issued by handler runs and not yet settled. */
    var outstandingLookups: nat
    /** The short codes handed to the gateway's lookup. */
    ghost var lookups: seq<string>
    /** The urls assigned to `window.location.href`, in order. */
    ghost var navigations: seq<string>

    ghost predicate Valid()
      reads this
    {
      errorMessage.Some? ==> errorMessage.value in {InvalidShortUrl, ShortUrlNotFound}
    }

    constructor ()
      ensures Valid()
      ensures errorMessage == None && outstandingLookups == 0 && lookups == [] && navigations == []
    {
      errorMessage, outstandingLookups := None, 0;
      lookups, navigations := [], [];
    }

    /** A `paramMap` emission: a missing or empty `shortcode` sets "Invalid short
        URL" and looks nothing up; otherwise a lookup is issued. The error message
        is never cleared. */
    method OnParams(shortcode: Option<string>)
      requires Valid()
      modifies this`errorMessage, this`outstandingLookups, this`lookups
      ensures Valid()
      ensures !Truthy(shortcode) ==>
                && errorMessage == Some(InvalidShortUrl)
                && outstandingLookups == old(outstandingLookups) && lookups == old(lookups)
      ensures Truthy(shortcode) ==>
                && errorMessage == old(errorMessage)
                && outstandingLookups == old(outstandingLookups) + 1
                && lookups == old(lookups) + [shortcode.value]
    {
      if !Truthy(shortcode) {
        errorMessage := Some(InvalidShortUrl);
        return;
      }
      outstandingLookups := outstandingLookups + 1;
      lookups := lookups + [shortcode.value];
    }

    /** A lookup has settled. On success `long_url` is assigned to
        `window.location.href` at once, exactly as returned: no scheme is added
        and there is no pause. `hrefAccepted` says whether the browser can parse
        that url. A rejected lookup, or an assignment that throws, sets "Short URL
        not found.". An error message, once set, stays set. */
    method LookupSettled(reply: Reply<string>, hrefAccepted: bool)
      requires Valid() && outstandingLookups > 0
      modifies this`errorMessage, this`outstandingLookups, this`navigations
      ensures Valid()
      ensures outstandingLookups == old(outstandingLookups) - 1
      ensures old(errorMessage).Some? ==> errorMessage.Some?
      ensures reply.Resolved? && hrefAccepted ==>
                navigations == old(navigations) + [reply.value] && errorMessage == old(errorMessage)
      ensures reply.Rejected? || !hrefAccepted ==>
                navigations == old(navigations) && errorMessage == Some(ShortUrlNotFound)
    {
      outstandingLookups := outstandingLookups - 1;
      match reply {
        case Resolved(longUrl) =>
          if hrefAccepted {
            navigations := navigations + [longUrl];
          } else {
            errorMessage := Some(ShortUrlNotFound);
          }
        case Rejected(_) =>
          errorMessage := Some(ShortUrlNotFound);
      }
    }
  }

  /** The component's template: the error message when one is set, otherwise
      "Redirecting...". Every message the component sets is shown instead of the
      waiting text. */
  function RedirectViewText(errorMessage: Option<string>): (text: string)
    ensures Truthy(errorMessage) ==> text == errorMessage.value
    ensures !Truthy(errorMessage) ==> text == RedirectingText
    ensures errorMessage.Some? && errorMessage.value in {InvalidShortUrl, ShortUrlNotFound} ==>
              text != RedirectingText
  {
    if Truthy(errorMessage) then errorMessage.value else RedirectingText
  }
}
