/** The shortening status and what the status component shows for it, and the
    `resetstatus` effect that the url-shortener component and the app shell attach
    to their `status` signal. */
module Status {
  import opened Common

  /** `ShortenStatus`; `undefined` is `None` of an `Option<ShortenStatus>`. The
      failure variant keeps the source's spelling. */
  datatype ShortenStatus = MissingUrl | RequestSuccess | RequstFailure

  const MissingUrlText: string := "Please enter an URL"
  const FailureText: string := "Failed to shorten URL"

  /** `computeRequestFailureMessage`: the fixed text, followed by ": " and the error
      message when there is a non-empty one. */
  function FailureMessage(errorMessage: Option<string>): (m: string)
    ensures StartsWith(m, FailureText)
    ensures Truthy(errorMessage) <==> m != FailureText
    ensures Truthy(errorMessage) ==> m[|FailureText|..] == ": " + errorMessage.value
  {
    var failureMessage := FailureText;
    if Truthy(errorMessage) then
      assert (failureMessage + ": " + errorMessage.value)[..|FailureText|] == FailureText;
      failureMessage + ": " + errorMessage.value
    else failureMessage
  }

  /** Two failure messages are equal only when they report the same error: the
      shown text determines whether there was an error message and which. */
  lemma {:induction false} FailureMessageInjective(a: Option<string>, b: Option<string>)
    requires FailureMessage(a) == FailureMessage(b)
    ensures Truthy(a) <==> Truthy(b)
    ensures Truthy(a) ==> a.value == b.value
  {
    if Truthy(a) {
      var m := FailureMessage(a);
      assert m[|FailureText|..] == ": " + a.value == ": " + b.value;
      assert a.value == (": " + a.value)[2..] == (": " + b.value)[2..] == b.value;
    }
  }

  /** The status component's template: a text for a missing url and for a failed
      request, nothing for success or no status. */
  function StatusText(status: Option<ShortenStatus>, errorMessage: Option<string>): (text: Option<string>)
    ensures text.None? <==> status.None? || status == Some(RequestSuccess)
    ensures status == Some(MissingUrl) ==> text == Some(MissingUrlText)
    ensures status == Some(RequstFailure) ==> text == Some(FailureMessage(errorMessage))
  {
    match status
    case Some(MissingUrl) => Some(MissingUrlText)
    case Some(RequstFailure) => Some(FailureMessage(errorMessage))
    case _ => None
  }

  /** A shown text identifies the status that produced it: the missing-url warning
      is never mistaken for a failure message. */
  lemma {:induction false} StatusTextDistinguishes(s1: Option<ShortenStatus>, e1: Option<string>,
                                                   s2: Option<ShortenStatus>, e2: Option<string>)
    requires StatusText(s1, e1) == StatusText(s2, e2) != None
    ensures s1 == s2
  {
  }

  /** The `status` signal together with the `resetstatus` effect and the 3000 ms
      timers it has armed and that have not fired yet. */
  datatype StatusCell = StatusCell(current: Option<ShortenStatus>, armedResets: nat) {

    /** A shown status always has a reset timer pending that will clear it. */
    predicate Valid() {
      current.Some? ==> armedResets > 0
    }

    /** `status.set(s)`: the effect runs again only when the value changes, and it
        arms a reset timer only for a non-empty status. */
    function Set(s: Option<ShortenStatus>): (c: StatusCell)
      ensures c.current == s
      ensures c.armedResets == armedResets + (if s != current && s.Some? then 1 else 0)
      ensures Valid() ==> c.Valid()
    {
      if s != current && s.Some? then StatusCell(s, armedResets + 1)
      else StatusCell(s, armedResets)
    }

    /** One armed timer fires and sets the status to undefined, whichever status
        armed it and whatever the status is now. */
    function ResetFires(): (c: StatusCell)
      requires armedResets > 0
      ensures c.Valid()
      ensures c.current == None && c.armedResets == armedResets - 1
    {
      StatusCell(None, armedResets - 1)
    }
  }

  const Initial: StatusCell := StatusCell(None, 0)

  /** Timers are not tied to the status that armed them: after a newer status is
      set, the timer armed for the previous one clears the newer status while the
      newer status's own timer is still pending. */
  lemma StaleResetClearsNewerStatus(old_: ShortenStatus, newer: ShortenStatus)
    requires old_ != newer
    ensures var c := Initial.Set(Some(old_)).Set(Some(newer)).ResetFires();
            c.current == None && c.armedResets == 1
  {
  }
}
