/** The url-shortener component (components/url-shortener/url-shortener.component.ts):
    single-flight shortening that clears the url on success, with the
    `resetstatus` effect clearing a shown status after 3000 ms. */
module ShortenerComponent {
  import opened Common
  import opened Status

  class UrlShortenerComponent {
    var url: Option<string>
    var shortPath: Option<string>
    var shorteningUrlInProgress: bool
    /** The `status` signal and the reset timers its effect has armed. */
    var status: StatusCell
    /** The urls handed to the gateway's shorten operation, oldest first. */
    ghost var shortenRequests: seq<string>

    ghost predicate Valid()
      reads this
    {
      && status.Valid()
      && (shorteningUrlInProgress ==> shortPath == None)
    }

    constructor ()
      ensures Valid()
      ensures url == None && shortPath == None && !shorteningUrlInProgress
      ensures status == Initial && shortenRequests == []
    {
      url, shortPath, shorteningUrlInProgress := None, None, false;
      status, shortenRequests := Initial, [];
    }

    /** The input field's two-way binding writes the url. */
    method OnUrlInput(u: Option<string>)
      requires Valid()
      modifies this`url
      ensures Valid() && url == u
    {
      url := u;
    }

    /** `shorten` up to its `await`: `shortPath` is cleared on every call; a call
        made while a request is outstanding is dropped; an empty url sets
        `MISSING_URL` and issues nothing; otherwise the flag is raised before the
        url is handed to the gateway. */
    method Shorten()
      requires Valid()
      modifies this
      ensures Valid()
      ensures shortPath == None && url == old(url)
      ensures old(shorteningUrlInProgress) ==>
                shorteningUrlInProgress && status == old(status) && shortenRequests == old(shortenRequests)
      ensures !old(shorteningUrlInProgress) && !Truthy(old(url)) ==>
                && !shorteningUrlInProgress
                && status == old(status).Set(Some(MissingUrl))
                && shortenRequests == old(shortenRequests)
      ensures !old(shorteningUrlInProgress) && Truthy(old(url)) ==>
                && shorteningUrlInProgress
                && status == old(status)
                && shortenRequests == old(shortenRequests) + [old(url).value]
    {
      shortPath := None;
      if shorteningUrlInProgress {
        return;
      }
      if !Truthy(url) {
        status := status.Set(Some(MissingUrl));
        return;
      }
      shorteningUrlInProgress := true;
      shortenRequests := shortenRequests + [url.value];
    }

    /** The rest of `shorten` once the gateway has answered with the response's
        `short_code` (undefined when the response has none): on success the code
        is shown, the url is cleared and the status is `REQUEST_SUCCESS`; on
        failure the status is `REQUST_FAILURE`, the url is kept and no short path
        is shown; the flag is lowered on both paths. */
    method ShortenResponse(reply: Reply<Option<string>>)
      requires Valid() && shorteningUrlInProgress
      modifies this
      ensures Valid()
      ensures !shorteningUrlInProgress && shortenRequests == old(shortenRequests)
      ensures reply.Resolved? ==>
                && shortPath == reply.value
                && url == None
                && status == old(status).Set(Some(RequestSuccess))
      ensures reply.Rejected? ==>
                && shortPath == None
                && url == old(url)
                && status == old(status).Set(Some(RequstFailure))
    {
      match reply {
        case Resolved(shortCode) =>
          shortPath := shortCode;
          url := None;
          status := status.Set(Some(RequestSuccess));
        case Rejected(_) =>
          status := status.Set(Some(RequstFailure));
      }
      shorteningUrlInProgress := false;
    }

    /** A 3000 ms reset timer fires and the status becomes undefined, even when it
        was armed for an earlier status than the one now shown. */
    method StatusResetFires()
      requires Valid() && status.armedResets > 0
      modifies this`status
      ensures Valid()
      ensures status == old(status).ResetFires()
    {
      status := status.ResetFires();
    }
  }
}
