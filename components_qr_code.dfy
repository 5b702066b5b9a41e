/** The QR reactors under components/qr-code/: the container
    (qr-code.container.ts) and the component (qr-code.component.ts). Each watches
    an input url, fetches its QR image through the gateway, and absorbs every
    failure. Neither ties a fetch to the url that started it. */
module ComponentsQrCode {
  import opened Common

  /** The gateway's QR response object; `imageBase64` is `None` when the
      response has no `image_base64` key. */
  datatype QrResponse = QrResponse(imageBase64: Option<string>)

  /** What a settled fetch makes of its reply. The image comes back only from a
      resolved fetch whose response is present and has the `image_base64` key. A
      missing response, a missing key and a rejected request are all absorbed
      alike. */
  function ReceivedImage(reply: Reply<Option<QrResponse>>): (image: Option<string>)
    ensures image.Some? <==>
              reply.Resolved? && reply.value.Some? && reply.value.value.imageBase64.Some?
    ensures image.Some? ==> image.value == reply.value.value.imageBase64.value
  {
    match reply
    case Resolved(Some(QrResponse(Some(img)))) => Some(img)
    case _ => None
  }

  /** components/qr-code/qr-code.container.ts. */
  class QrCodeContainer {
    /** The `url` input. */
    var url: Option<string>
    /** The `qrCodeBase64` signal. */
    var qrCodeBase64: Option<string>
    /** The urls of the fetches not yet settled, in the order they were issued. */
    var inFlight: seq<string>

    /** Every fetch was issued for a non-empty url. */
    ghost predicate Valid()
      reads this
    {
      forall i :: 0 <= i < |inFlight| ==> inFlight[i] != ""
    }

    constructor ()
      ensures Valid()
      ensures url == None && qrCodeBase64 == None && inFlight == []
    {
      url, qrCodeBase64, inFlight := None, None, [];
    }

    /** A new value for the `url` input. The `updateQrCode` effect runs only when
        the value changes. A non-empty url issues one fetch. An empty or missing
        url clears the image at once and issues nothing. */
    method SetUrl(u: Option<string>)
      requires Valid()
      modifies this
      ensures Valid()
      ensures url == u
      ensures u == old(url) ==> qrCodeBase64 == old(qrCodeBase64) && inFlight == old(inFlight)
      ensures u != old(url) && Truthy(u) ==>
                qrCodeBase64 == old(qrCodeBase64) && inFlight == old(inFlight) + [u.value]
      ensures u != old(url) && !Truthy(u) ==>
                qrCodeBase64 == None && inFlight == old(inFlight)
    {
      if u == url {
        return;
      }
      url := u;
      if Truthy(u) {
        inFlight := inFlight + [u.value];
      } else {
        qrCodeBase64 := None;
      }
    }

    /** The `k`-th outstanding fetch settles, in whatever order the gateway
        answers. The image becomes what the reply yields and is cleared on every
        failure. This happens whether or not the fetch's url is still the
        current input. */
    method FetchSettled(k: nat, reply: Reply<Option<QrResponse>>)
      requires Valid() && k < |inFlight|
      modifies this`qrCodeBase64, this`inFlight
      ensures Valid()
      ensures qrCodeBase64 == ReceivedImage(reply)
      ensures inFlight == old(inFlight[..k] + inFlight[k + 1..])
    {
      var caught := false;
      match reply {
        case Resolved(response) =>
          if response.Some? && response.value.imageBase64.Some? {
            qrCodeBase64 := response.value.imageBase64;
          } else {
            caught := true;
          }
        case Rejected(_) =>
          caught := true;
      }
      if caught {
        qrCodeBase64 := None;
      }
      inFlight := inFlight[..k] + inFlight[k + 1..];
    }
  }

  /** The input changes from "a.com" to "b.com" before the fetch for "a.com"
      settles. The fetch for "b.com" settles first and the one for "a.com" last,
      so "a.com"'s image is shown while the input is "b.com". */
  method StaleFetchOverwritesContainer() returns (url: Option<string>, shown: Option<string>)
    ensures url == Some("b.com") && shown == Some("qr-a")
  {
    var c := new QrCodeContainer();
    c.SetUrl(Some("a.com"));
    c.SetUrl(Some("b.com"));
    assert c.inFlight == ["a.com", "b.com"];
    c.FetchSettled(1, Resolved(Some(QrResponse(Some("qr-b")))));
    c.FetchSettled(0, Resolved(Some(QrResponse(Some("qr-a")))));
    url, shown := c.url, c.qrCodeBase64;
  }

  /** The component's template renders the image only when `qrCodeBase64` is
      non-empty. */
  predicate ShowsImage(qrCodeBase64: Option<string>)
    ensures ShowsImage(qrCodeBase64) <==> qrCodeBase64.Some? && |qrCodeBase64.value| > 0
  {
    Truthy(qrCodeBase64)
  }

  /** components/qr-code/qr-code.component.ts: the variant that never clears its
      image. */
  class QrCodeComponent {
    /** The `url` input. */
    var url: Option<string>
    /** The `qrCodeBase64` signal. */
    var qrCodeBase64: Option<string>
    /** The urls of the fetches not yet settled, in the order they were issued. */
    var inFlight: seq<string>

    /** Every fetch was issued for a non-empty url. */
    ghost predicate Valid()
      reads this
    {
      forall i :: 0 <= i < |inFlight| ==> inFlight[i] != ""
    }

    constructor ()
      ensures Valid()
      ensures url == None && qrCodeBase64 == None && inFlight == []
    {
      url, qrCodeBase64, inFlight := None, None, [];
    }

    /** A new value for the `url` input. The effect runs only when the value
        changes. A non-empty url issues one fetch. An empty one does nothing:
        the image is kept. */
    method SetUrl(u: Option<string>)
      requires Valid()
      modifies this`url, this`inFlight
      ensures Valid()
      ensures url == u
      ensures u != old(url) && Truthy(u) ==> inFlight == old(inFlight) + [u.value]
      ensures u == old(url) || !Truthy(u) ==> inFlight == old(inFlight)
    {
      if u == url {
        return;
      }
      url := u;
      if Truthy(u) {
        inFlight := inFlight + [u.value];
      }
    }

    /** The `k`-th outstanding fetch settles. An image it yields replaces the
        current one. Any failure leaves the previous image in place. There is
        no staleness check. */
    method FetchSettled(k: nat, reply: Reply<Option<QrResponse>>)
      requires Valid() && k < |inFlight|
      modifies this`qrCodeBase64, this`inFlight
      ensures Valid()
      ensures qrCodeBase64 == if ReceivedImage(reply).Some? then ReceivedImage(reply) else old(qrCodeBase64)
      ensures inFlight == old(inFlight[..k] + inFlight[k + 1..])
    {
      match reply {
        case Resolved(response) =>
          if response.Some? && response.value.imageBase64.Some? {
            qrCodeBase64 := response.value.imageBase64;
          }
        case Rejected(_) =>
      }
      inFlight := inFlight[..k] + inFlight[k + 1..];
    }
  }

  /** The component keeps an image after its input is cleared and after a later
      fetch fails. So the image of "a.com" is still rendered while the input is
      empty. */
  method ClearedInputKeepsImage() returns (url: Option<string>, rendered: bool)
    ensures url == Some("") && rendered
  {
    var c := new QrCodeComponent();
    c.SetUrl(Some("a.com"));
    c.FetchSettled(0, Resolved(Some(QrResponse(Some("qr-a")))));
    c.SetUrl(Some("b.com"));
    c.FetchSettled(0, Rejected(NotAnObject));
    c.SetUrl(Some(""));
    url, rendered := c.url, ShowsImage(c.qrCodeBase64);
  }
}
