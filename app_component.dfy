/** The app shell (app.component.ts): single-flight shortening without clearing a
    previous result, a placeholder code written 1000 ms after success, and the
    `resetstatus` effect. */
module App {
  import opened Common
  import opened Status

  const PlaceholderCode: string := "Shortened URL code"

  class AppComponent {
    var url: Option<string>
    var shortCode: Option<string>
    var shorteningUrlInProgress: bool
    /** The `status` signal and the reset timers its effect has armed. */
    var status: StatusCell
    /** 1000 ms timers armed by successful requests, not yet fired. */
    var armedPlaceholders: nat
    /** The urls handed to the gateway's shorten operation, oldest first. */
    ghost var shortenRequests: seq<string>

    ghost predicate Valid()
      reads this
    {
      status.Valid()
    }

    /** The whole state apart from the status cell. */
    ghost function Rest(): (Option<string>, Option<string>, bool, nat, seq<string>)
      reads this
    {
      (url, shortCode, shorteningUrlInProgress, armedPlaceholders, shortenRequests)
    }

    constructor ()
      ensures Valid()
      ensures url == None && shortCode == None && !shorteningUrlInProgress
      ensures status == Initial && armedPlaceholders == 0 && shortenRequests == []
    {
      url, shortCode, shorteningUrlInProgress := None, None, false;
      status, armedPlaceholders, shortenRequests := Initial, 0, [];
    }

    /** The input field's two-way binding writes the url. */
    method OnUrlInput(u: Option<string>)
      requires Valid()
      modifies this`url
      ensures Valid() && url == u
    {
      url := u;
    }

    /** `shorten` up to its `await`: a call made while a request is outstanding
        changes nothing at all; an empty url sets `MISSING_URL` and issues
        nothing; otherwise the flag is raised and the url handed to the gateway. */
    method Shorten()
      requires Valid()
      modifies this
      ensures Valid()
      ensures url == old(url) && shortCode == old(shortCode) && armedPlaceholders == old(armedPlaceholders)
      ensures old(shorteningUrlInProgress) ==> Rest() == old(Rest()) && status == old(status)
      ensures !old(shorteningUrlInProgress) && !Truthy(old(url)) ==>
                && !shorteningUrlInProgress
                && status == old(status).Set(Some(MissingUrl))
                && shortenRequests == old(shortenRequests)
      ensures !old(shorteningUrlInProgress) && Truthy(old(url)) ==>
                && shorteningUrlInProgress
                && status == old(status)
                && shortenRequests == old(shortenRequests) + [old(url).value]
    {
      if shorteningUrlInProgress {
        return;
      }
      if !Truthy(url) {
        status := status.Set(Some(MissingUrl));
        return;
      }
      shorteningUrlInProgress := true;
      shortenRequests := shortenRequests + [url.value];
    }

    /** The rest of `shorten` once the gateway has answered; the returned value is
        not used. Success arms the placeholder timer, clears the url and sets
        `REQUEST_SUCCESS`; failure sets `REQUST_FAILURE` and keeps the url; the
        flag is lowered on both paths. */
    method ShortenResponse(reply: Reply<Option<string>>)
      requires Valid() && shorteningUrlInProgress
      modifies this
      ensures Valid()
      ensures !shorteningUrlInProgress && shortCode == old(shortCode) && shortenRequests == old(shortenRequests)
      ensures reply.Resolved? ==>
                && url == None
                && armedPlaceholders == old(armedPlaceholders) + 1
                && status == old(status).Set(Some(RequestSuccess))
      ensures reply.Rejected? ==>
                && url == old(url)
                && armedPlaceholders == old(armedPlaceholders)
                && status == old(status).Set(Some(RequstFailure))
    {
      if reply.Resolved? {
        armedPlaceholders := armedPlaceholders + 1;
        url := None;
        status := status.Set(Some(RequestSuccess));
      } else {
        status := status.Set(Some(RequstFailure));
      }
      shorteningUrlInProgress := false;
    }

    /** The 1000 ms timer fires and writes the placeholder, not the code the
        gateway returned. */
    method PlaceholderTimerFires()
      requires Valid() && armedPlaceholders > 0
      modifies this`shortCode, this`armedPlaceholders
      ensures Valid()
      ensures shortCode == Some(PlaceholderCode) && armedPlaceholders == old(armedPlaceholders) - 1
    {
      armedPlaceholders := armedPlaceholders - 1;
      shortCode := Some(PlaceholderCode);
    }

    /** A 3000 ms reset timer fires and the status becomes undefined. */
    method StatusResetFires()
      requires Valid() && status.armedResets > 0
      modifies this`status
      ensures Valid()
      ensures status == old(status).ResetFires()
    {
      status := status.ResetFires();
    }
  }
}
