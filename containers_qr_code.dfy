/** The QR reactor under containers/ (containers/qr-code/qr-code.container.ts). It
    behaves like the container under components/, without its logging. */
module ContainersQrCode {
  import opened Common
  import opened ComponentsQrCode

  class QrCodeContainer {
    /** The `url` input. */
    var url: Option<string>
    /** The `qrCodeBase64` signal. */
    var qrCodeBase64: Option<string>
    /** The urls of the fetches not yet settled, in the order they were issued. */
    var inFlight: seq<string>

    /** Every fetch was issued for a non-empty url. */
    ghost predicate Valid()
      reads this
    {
      forall i :: 0 <= i < |inFlight| ==> inFlight[i] != ""
    }

    constructor ()
      ensures Valid()
      ensures url == None && qrCodeBase64 == None && inFlight == []
    {
      url, qrCodeBase64, inFlight := None, None, [];
    }

    /** A new value for the `url` input. The effect runs only when the value
        changes. A non-empty url issues one fetch. An empty or missing url
        clears the image and issues nothing. */
    method SetUrl(u: Option<string>)
      requires Valid()
      modifies this
      ensures Valid()
      ensures url == u
      ensures u == old(url) ==> qrCodeBase64 == old(qrCodeBase64) && inFlight == old(inFlight)
      ensures u != old(url) && Truthy(u) ==>
                qrCodeBase64 == old(qrCodeBase64) && inFlight == old(inFlight) + [u.value]
      ensures u != old(url) && !Truthy(u) ==>
                qrCodeBase64 == None && inFlight == old(inFlight)
    {
      if u == url {
        return;
      }
      url := u;
      if Truthy(u) {
        inFlight := inFlight + [u.value];
      } else {
        qrCodeBase64 := None;
      }
    }

    /** The `k`-th outstanding fetch settles. The image becomes what the reply
        yields and is cleared on any failure. The last fetch to settle wins,
        whatever url it was issued for. */
    method FetchSettled(k: nat, reply: Reply<Option<QrResponse>>)
      requires Valid() && k < |inFlight|
      modifies this`qrCodeBase64, this`inFlight
      ensures Valid()
      ensures qrCodeBase64 == ReceivedImage(reply)
      ensures inFlight == old(inFlight[..k] + inFlight[k + 1..])
    {
      var caught := false;
      match reply {
        case Resolved(response) =>
          if response.Some? && response.value.imageBase64.Some? {
            qrCodeBase64 := response.value.imageBase64;
          } else {
            caught := true;
          }
        case Rejected(_) =>
          caught := true;
      }
      if caught {
        qrCodeBase64 := None;
      }
      inFlight := inFlight[..k] + inFlight[k + 1..];
    }
  }

  /** Clearing the input empties the image at once, but a fetch issued before
      that and settling after it brings the image back while the input is
      empty. */
  method LateFetchAfterClear() returns (url: Option<string>, shown: Option<string>)
    ensures url == None && shown == Some("qr-a")
  {
    var c := new QrCodeContainer();
    c.SetUrl(Some("a.com"));
    c.SetUrl(None);
    assert c.qrCodeBase64 == None && c.inFlight == ["a.com"];
    c.FetchSettled(0, Resolved(Some(QrResponse(Some("qr-a")))));
    url, shown := c.url, c.qrCodeBase64;
  }
}
