/** The client of the xorpay payment gateway (xorpay/payment.go): the session
    record, the outbound MD5 signature, the payment form, the status check on
    the gateway's answer, and the verification of the gateway's callback. */
module Xorpay {
  import opened Common
  import opened Strings

  const PayURLPrefix: String := "https://xorpay.com/api/pay/"

  datatype Session = Session(notifyURL: String, appID: String, appSecret: String, payURL: String)

  datatype Transaction = Transaction(name: String, payType: String, price: nat, orderID: String)

  /** The decoded answer of the gateway to a payment request. */
  datatype PlatformPayResponse =
    PlatformPayResponse(status: String, expiresIn: nat, platformOrderID: String, qr: String)

  /** What posting the form and decoding the JSON answer gave. */
  datatype PostOutcome = TransportError | DecodeError | Decoded(response: PlatformPayResponse)

  /** `http.PostForm` followed by JSON decoding, as an oracle of (URL, form). */
  type Gateway = (String, map<String, String>) -> PostOutcome

  datatype PayError = PostFailed | BadJSON | StatusNotOk(status: String)

  /** The callback form the gateway posts once a payment completes. */
  datatype PlatformNotifyResponse = PlatformNotifyResponse(
    platformOrderID: String, orderID: String, payPrice: String,
    payTime: String, sign: String, detail: String)

  /** The JSON document carried in the callback's `detail` field. */
  datatype PlatformNotifyResponseDetail = PlatformNotifyResponseDetail(
    transactionID: String, transactionType: String, transactionBuyer: String)

  /** `New`: a session whose pay URL is the gateway's URL for this app id. */
  function New(notifyUrl: String, appId: String, appSecret: String): (s: Session)
    ensures s.notifyURL == notifyUrl && s.appID == appId && s.appSecret == appSecret
    ensures PayURLPrefix <= s.payURL && s.payURL[|PayURLPrefix|..] == appId
  {
    Session(notifyUrl, appId, appSecret, PayURLPrefix + appId)
  }

  /** The app id can be read back from the pay URL of a session made by `New`. */
  lemma PayURLNamesApp(notifyUrl: String, appId: String, appSecret: String)
    ensures TrimPrefix(New(notifyUrl, appId, appSecret).payURL, PayURLPrefix) == appId
  {
    var s := New(notifyUrl, appId, appSecret);
    assert PayURLPrefix <= s.payURL;
  }

  /** The fields the outbound signature covers, in order. */
  function SignFields(t: Transaction, s: Session): seq<String>
  {
    [t.name, t.payType, FormatUint(t.price), t.orderID, s.notifyURL, s.appSecret]
  }

  /** `calculateSign`: the digest of name, pay type, decimal price, order id,
      notify URL and app secret, joined with no separator. */
  function CalculateSign(md5Hex: Digest, t: Transaction, s: Session): (sign: String)
    ensures sign == md5Hex(t.name + t.payType + FormatUint(t.price) + t.orderID + s.notifyURL + s.appSecret)
  {
    var fields := SignFields(t, s);
    assert Concat(fields) == t.name + t.payType + FormatUint(t.price) + t.orderID + s.notifyURL + s.appSecret by {
      assert Concat(fields[5..]) == s.appSecret by { assert fields[5..][1..] == []; }
      assert Concat(fields[4..]) == s.notifyURL + s.appSecret by { assert fields[4..][1..] == fields[5..]; }
      assert Concat(fields[3..]) == t.orderID + Concat(fields[4..]) by { assert fields[3..][1..] == fields[4..]; }
      assert Concat(fields[2..]) == FormatUint(t.price) + Concat(fields[3..]) by { assert fields[2..][1..] == fields[3..]; }
      assert Concat(fields[1..]) == t.payType + Concat(fields[2..]) by { assert fields[1..][1..] == fields[2..]; }
    }
    md5Hex(Concat(fields))
  }

  /** The form `Pay` posts: the five transaction fields and the signature. */
  function PayForm(md5Hex: Digest, t: Transaction, s: Session): (form: map<String, String>)
    ensures form.Keys == {"name", "pay_type", "price", "order_id", "notify_url", "sign"}
    ensures form["name"] == t.name && form["pay_type"] == t.payType
    ensures form["price"] == FormatUint(t.price) && form["order_id"] == t.orderID
    ensures form["notify_url"] == s.notifyURL
    ensures form["sign"] == CalculateSign(md5Hex, t, s)
  {
    map[][
      "name" := t.name][
      "pay_type" := t.payType][
      "price" := FormatUint(t.price)][
      "order_id" := t.orderID][
      "notify_url" := s.notifyURL][
      "sign" := CalculateSign(md5Hex, t, s)]
  }

  /** The gateway, knowing the secret, recomputes the form's signature from
      the form's own fields (the price read back from its decimal text). */
  lemma PayFormSignVerifiable(md5Hex: Digest, t: Transaction, s: Session)
    ensures var form := PayForm(md5Hex, t, s);
            var price := ParseUint(form["price"]);
            && price.Some?
            && CalculateSign(md5Hex,
                             Transaction(form["name"], form["pay_type"], price.value, form["order_id"]),
                             s.(notifyURL := form["notify_url"]))
               == form["sign"]
  {
    ParseFormatUint(t.price);
  }

  /** `Pay`: posts the signed form to the session's pay URL and accepts the
      decoded answer only when its status is "ok". */
  function Pay(md5Hex: Digest, gateway: Gateway, s: Session, t: Transaction): (r: Result<PlatformPayResponse, PayError>)
    ensures var sent := gateway(s.payURL, PayForm(md5Hex, t, s));
            && (r.Ok? <==> sent.Decoded? && sent.response.status == "ok")
            && (r.Ok? ==> r.value == sent.response)
            && (sent.TransportError? ==> r == Err(PostFailed))
            && (sent.DecodeError? ==> r == Err(BadJSON))
            && (sent.Decoded? && sent.response.status != "ok" ==> r == Err(StatusNotOk(sent.response.status)))
  {
    match gateway(s.payURL, PayForm(md5Hex, t, s))
    case TransportError => Err(PostFailed)
    case DecodeError => Err(BadJSON)
    case Decoded(response) =>
      if response.status != "ok" then Err(StatusNotOk(response.status)) else Ok(response)
  }

  /** The fields the callback signature covers, in order. */
  function NotifySignFields(r: PlatformNotifyResponse, s: Session): seq<String>
  {
    [r.platformOrderID, r.orderID, r.payPrice, r.payTime, s.appSecret]
  }

  /** `CheckSign`: the callback is authentic iff its `sign` is the digest of
      aoid, order id, pay price, pay time and app secret, with no separator. */
  function CheckSign(md5Hex: Digest, s: Session, r: PlatformNotifyResponse): (ok: bool)
    ensures ok <==> r.sign == md5Hex(r.platformOrderID + r.orderID + r.payPrice + r.payTime + s.appSecret)
  {
    var fields := NotifySignFields(r, s);
    assert Concat(fields) == r.platformOrderID + r.orderID + r.payPrice + r.payTime + s.appSecret by {
      assert Concat(fields[4..]) == s.appSecret by { assert fields[4..][1..] == []; }
      assert Concat(fields[3..]) == r.payTime + Concat(fields[4..]) by { assert fields[3..][1..] == fields[4..]; }
      assert Concat(fields[2..]) == r.payPrice + Concat(fields[3..]) by { assert fields[2..][1..] == fields[3..]; }
      assert Concat(fields[1..]) == r.orderID + Concat(fields[2..]) by { assert fields[1..][1..] == fields[2..]; }
    }
    md5Hex(Concat(fields)) == r.sign
  }

  /** Two concatenations of equal total length that agree on where the first
      part ends agree part by part. */
  lemma AppendSplit(x: String, y: String, x': String, y': String)
    requires x + y == x' + y' && |x| == |x'|
    ensures x == x' && y == y'
  {
    assert x == (x + y)[..|x|] && x' == (x' + y')[..|x'|];
    assert y == (x + y)[|x|..] && y' == (x' + y')[|x'|..];
  }

  /** A callback accepted under an injective digest cannot be altered in any
      signed field (aoid, order id, pay price, pay time) and still be
      accepted with the same `sign`, as long as each field keeps its length;
      the length condition is needed because the fields are joined with no
      separator (see `SignDoesNotBindFieldBoundaries`). */
  lemma TamperedCallbackRefused(md5Hex: Digest, s: Session, r: PlatformNotifyResponse, t: PlatformNotifyResponse)
    requires forall x, y :: md5Hex(x) == md5Hex(y) ==> x == y
    requires CheckSign(md5Hex, s, r)
    requires t.sign == r.sign
    requires |t.platformOrderID| == |r.platformOrderID| && |t.orderID| == |r.orderID|
    requires |t.payPrice| == |r.payPrice| && |t.payTime| == |r.payTime|
    requires t.platformOrderID != r.platformOrderID || t.orderID != r.orderID
             || t.payPrice != r.payPrice || t.payTime != r.payTime
    ensures !CheckSign(md5Hex, s, t)
  {
    if CheckSign(md5Hex, s, t) {
      var a1, a2, a3 := r.platformOrderID + r.orderID, r.platformOrderID + r.orderID + r.payPrice,
                        r.platformOrderID + r.orderID + r.payPrice + r.payTime;
      var b1, b2, b3 := t.platformOrderID + t.orderID, t.platformOrderID + t.orderID + t.payPrice,
                        t.platformOrderID + t.orderID + t.payPrice + t.payTime;
      assert a3 + s.appSecret == b3 + s.appSecret;
      AppendSplit(a3, s.appSecret, b3, s.appSecret);
      AppendSplit(a2, r.payTime, b2, t.payTime);
      AppendSplit(a1, r.payPrice, b1, t.payPrice);
      AppendSplit(r.platformOrderID, r.orderID, t.platformOrderID, t.orderID);
      assert false;
    }
  }

  /** The `detail` field is outside the signature: changing it alone never
      changes the verdict. */
  lemma CheckSignIgnoresDetail(md5Hex: Digest, s: Session, r: PlatformNotifyResponse, detail: String)
    ensures CheckSign(md5Hex, s, r.(detail := detail)) == CheckSign(md5Hex, s, r)
  {
  }

  /** Because the signed fields are joined without a separator, the signature
      does not bind field boundaries: two callbacks that split the same text
      differently between aoid and order id get the same verdict under every
      digest. */
  lemma SignDoesNotBindFieldBoundaries(md5Hex: Digest, s: Session)
    ensures var a := PlatformNotifyResponse("ab", "c", "100", "2020-01-01 00:00:00", "x", "");
            var b := PlatformNotifyResponse("a", "bc", "100", "2020-01-01 00:00:00", "x", "");
            a.platformOrderID != b.platformOrderID && CheckSign(md5Hex, s, a) == CheckSign(md5Hex, s, b)
  {
    assert "ab" + "c" == "a" + "bc";
  }
}
