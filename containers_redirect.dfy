/** The redirect container under containers/ (containers/redirect/redirect.container.ts):
    the same flow as the one under components/, with a failure message built from
    the long url as far as it was read. */
module ContainersRedirect {
  import opened Common

  const NotFoundPrefix: string := "Short URL not found or invalid long URL: "

  /** The failure message: the fixed text followed by the long url as it stood
      when the failure was caught; the url can be read back from the message. */
  function NotFoundMessage(longUrl: string): (m: string)
    ensures |m| == |NotFoundPrefix| + |longUrl|
    ensures StartsWith(m, NotFoundPrefix)
    ensures m[|NotFoundPrefix|..] == longUrl
  {
    PrefixedHasPrefix(NotFoundPrefix, longUrl);
    NotFoundPrefix + longUrl
  }

  const HomePath: string := "/"

  /** Where `handleShortCode` stands. */
  datatype Stage =
    | Created
    | LookingUp
    | Waiting(target: string)    // the 5000 ms pause before leaving
    | Navigated(target: string)  // `window.location.href` has been assigned
    | Failed

  class RedirectContainer {
    var errorMessage: Option<string>
    var isRedirecting: bool
    var stage: Stage
    /** The short codes handed to the gateway's lookup. */
    ghost var lookups: seq<string>
    /** The urls assigned to `window.location.href`, in order. */
    ghost var navigations: seq<string>

    /** `isRedirecting` drops exactly when the resolution fails, which is also
        exactly when there is an error message; a navigation target always
        carries an http(s) scheme. */
    ghost predicate Valid()
      reads this
    {
      && (isRedirecting <==> !stage.Failed?)
      && (errorMessage.Some? <==> stage.Failed?)
      && (errorMessage.Some? ==> StartsWith(errorMessage.value, NotFoundPrefix))
      && ((stage.Waiting? || stage.Navigated?) ==> HasHttpScheme(stage.target))
      && (stage.Created? <==> lookups == [])
    }

    constructor ()
      ensures Valid()
      ensures errorMessage == None && isRedirecting && stage == Created
      ensures lookups == [] && navigations == []
    {
      errorMessage, isRedirecting, stage := None, true, Created;
      lookups, navigations := [], [];
    }

    /** `ngOnInit`: the code taken from the route is looked up. */
    method NgOnInit(shortCode: string)
      requires Valid() && stage == Created
      modifies this`stage, this`lookups
      ensures Valid()
      ensures stage == LookingUp && lookups == [shortCode]
    {
      stage := LookingUp;
      lookups := lookups + [shortCode];
    }

    /** The lookup has settled (`None` is an undefined value). A non-empty long url
        is normalised and held for the pause. A rejected lookup leaves `longUrl` at
        its initial "", and an empty result is interpolated as it is, so the
        message ends with "" or with "undefined". */
    method LookupResolved(reply: Reply<Option<string>>)
      requires Valid() && stage == LookingUp
      modifies this`errorMessage, this`isRedirecting, this`stage
      ensures Valid()
      ensures reply.Resolved? && Truthy(reply.value) ==>
                stage == Waiting(AddHttps(reply.value.value)) && isRedirecting && errorMessage == None
      ensures reply.Resolved? && reply.value == Some("") ==>
                stage == Failed && !isRedirecting && errorMessage == Some(NotFoundPrefix)
      ensures reply.Resolved? && reply.value == None ==>
                stage == Failed && !isRedirecting && errorMessage == Some(NotFoundPrefix + "undefined")
      ensures reply.Rejected? ==>
                stage == Failed && !isRedirecting && errorMessage == Some(NotFoundPrefix)
    {
      var longUrl: string := "";
      var failed := false;
      match reply {
        case Resolved(returned) =>
          longUrl := Interpolate(returned);
          if !Truthy(returned) {
            failed := true;
          } else {
            longUrl := AddHttps(longUrl);
            stage := Waiting(longUrl);
          }
        case Rejected(_) =>
          failed := true;
      }
      if failed {
        assert NotFoundPrefix + "" == NotFoundPrefix;
        errorMessage := Some(NotFoundMessage(longUrl));
        isRedirecting := false;
        stage := Failed;
      }
    }

    /** The 5000 ms pause is over and the normalised url is assigned to
        `window.location.href`. `hrefAccepted` says whether the browser can parse
        it. When it cannot, the assignment throws. By then `longUrl` holds the
        normalised url, so the failure message ends with that url. */
    method DelayElapsed(hrefAccepted: bool)
      requires Valid() && stage.Waiting?
      modifies this`stage, this`navigations, this`errorMessage, this`isRedirecting
      ensures Valid()
      ensures hrefAccepted ==>
                && stage == Navigated(old(stage).target) && HasHttpScheme(stage.target)
                && navigations == old(navigations) + [stage.target]
                && errorMessage == None && isRedirecting
      ensures !hrefAccepted ==>
                && stage == Failed && navigations == old(navigations)
                && errorMessage == Some(NotFoundPrefix + old(stage).target) && !isRedirecting
    {
      if hrefAccepted {
        stage := Navigated(stage.target);
        navigations := navigations + [stage.target];
      } else {
        errorMessage := Some(NotFoundMessage(stage.target));
        isRedirecting := false;
        stage := Failed;
      }
    }

    /** `onGoHomeRequested`: the browser is sent to the site's root, whatever the
        lookup's state. */
    method OnGoHomeRequested()
      requires Valid()
      modifies this`navigations
      ensures Valid()
      ensures navigations == old(navigations) + [HomePath]
    {
      navigations := navigations + [HomePath];
    }
  }
}
