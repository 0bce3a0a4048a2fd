/** The two HTTP handlers of `request-invoice/requestinvoice.py`, `getinvoice`
    (`/invoice/<amount>/<description>`) and `getinvoiceLNUrl` (`/payRequest`),
    as pure functions from the request to the one call they make on the node's
    `invoice` RPC and to the response they build from its result. The RPC and
    the `uuid4()` token that ends every label are parameters. */
module Handlers {
  import opened Wrappers

  /** The JSON values the RPC returns and the handlers send back. */
  datatype Json =
    | JNull
    | JBool(b: bool)
    | JInt(i: int)
    | JString(s: string)
    | JArray(items: seq<Json>)
    | JObject(fields: map<string, Json>)

  /** The arguments of one `plugin.rpc.invoice(msatoshi, label, description)` call. */
  datatype InvoiceCall = InvoiceCall(msatoshi: int, invoiceLabel: string, description: string)

  /** The node's invoice RPC: the invoice object, or the message of the error it raised. */
  type InvoiceRpc = InvoiceCall -> Result<Json, string>

  datatype HandlerError =
    | InvalidAmount            // `int()` of a missing or non-numeric `amount`
    | UpstreamFailure(message: string)
    | NoBolt11                 // `invoice['bolt11']` on a result without that key

  const LabelPrefix: string := "ln-getinvoice-"

  /** Millisatoshi per satoshi: the path form takes whole satoshi. */
  const MsatPerSat: int := 1000

  /** The longest comment the query form forwards. */
  const CommentLimit: nat := 640

  /** `"ln-getinvoice-{}".format(uuid.uuid4())` for a given token. */
  function Label(token: string): (l: string)
    ensures |l| == |LabelPrefix| + |token|
    ensures LabelPrefix <= l
    ensures l[|LabelPrefix|..] == token
  {
    LabelPrefix + token
  }

  /** The label gives back its token, so distinct tokens give distinct labels. */
  lemma LabelToken(token: string, other: string)
    ensures Label(token)[|LabelPrefix|..] == token
    ensures Label(token) == Label(other) <==> token == other
  {
  }

  // ---- /invoice/<int:amount>/<description> ----

  /** The call `getinvoice` makes: amount scaled to millisatoshi, fresh label,
      description verbatim. */
  function PathFormCall(amount: nat, description: string, token: string): (c: InvoiceCall)
    ensures c.msatoshi == amount * MsatPerSat
    ensures c.msatoshi % MsatPerSat == 0 && c.msatoshi >= 0
    ensures LabelPrefix <= c.invoiceLabel && c.invoiceLabel[|LabelPrefix|..] == token
    ensures c.description == description
  {
    InvoiceCall(amount * MsatPerSat, Label(token), description)
  }

  /** `getinvoice(amount, description)`: the RPC's result is the response body,
      unchanged; an RPC error propagates. */
  function GetInvoice(amount: nat, description: string, token: string, rpc: InvoiceRpc): (r: Result<Json, HandlerError>)
    ensures var c := PathFormCall(amount, description, token);
            && (r.Success? <==> rpc(c).Success?)
            && (r.Success? ==> r.value == rpc(c).value)
            && (r.Failure? ==> r.error == UpstreamFailure(rpc(c).error))
  {
    match rpc(PathFormCall(amount, description, token))
    case Success(invoice) => Success(invoice)
    case Failure(m) => Failure(UpstreamFailure(m))
  }

  /** The path form forwards exactly amount x 1000, the prefixed label and the
      description, and returns what the RPC returned. */
  lemma GetInvoiceForwards(amount: nat, description: string, token: string, rpc: InvoiceRpc, invoice: Json)
    requires rpc(InvoiceCall(amount * 1000, "ln-getinvoice-" + token, description)) == Success(invoice)
    ensures GetInvoice(amount, description, token, rpc) == Success(invoice)
  {
  }

  // ---- /payRequest?amount=&comment= ----

  /** The query arguments: `amount` already parsed by `int()` (`None` when it is
      missing or does not parse), `comment` as given. */
  datatype PayQuery = PayQuery(amount: Option<int>, comment: Option<string>)

  function Min(a: int, b: int): int {
    if a <= b then a else b
  }

  /** `description[:640]`. */
  function Truncate(comment: string): (t: string)
    ensures |t| == Min(|comment|, CommentLimit)
    ensures t <= comment
  {
    if |comment| <= CommentLimit then comment else comment[..CommentLimit]
  }

  /** Truncation keeps short comments, and applying it twice is applying it once. */
  lemma TruncateProperties(comment: string)
    ensures |comment| <= CommentLimit ==> Truncate(comment) == comment
    ensures |comment| > CommentLimit ==> |Truncate(comment)| == CommentLimit
    ensures Truncate(Truncate(comment)) == Truncate(comment)
  {
  }

  /** A prefix of at most 640 characters is its own truncation, so truncation
      gives the longest such prefix. */
  lemma TruncateIsLongestPrefix(comment: string, p: string)
    requires p <= comment && |p| <= CommentLimit
    ensures |p| <= |Truncate(comment)|
    ensures p <= Truncate(comment)
  {
  }

  /** The description the query form passes: `""` for no comment, else the
      truncated comment. */
  function QueryDescription(comment: Option<string>): (d: string)
    ensures comment.None? ==> d == ""
    ensures comment.Some? ==> d <= comment.value && |d| == Min(|comment.value|, CommentLimit)
  {
    match comment
    case None => ""
    case Some(c) => Truncate(c)
  }

  /** The call `getinvoiceLNUrl` makes, or the error raised before any call. */
  function QueryFormCall(q: PayQuery, token: string): (r: Result<InvoiceCall, HandlerError>)
    ensures r.Failure? <==> q.amount.None?
    ensures r.Failure? ==> r.error == InvalidAmount
    ensures r.Success? ==> r.value.msatoshi == q.amount.value
    ensures r.Success? ==> LabelPrefix <= r.value.invoiceLabel && r.value.invoiceLabel[|LabelPrefix|..] == token
    ensures r.Success? ==> r.value.description == QueryDescription(q.comment)
  {
    match q.amount
    case None => Failure(InvalidAmount)
    case Some(a) =>
      Success(InvoiceCall(a, Label(token), QueryDescription(q.comment)))
  }

  /** The reduced LNURL-pay response: the payment request under `pr` and no
      routing hints. */
  function PayResponse(bolt11: Json): (j: Json)
    ensures j.JObject? && j.fields.Keys == {"pr", "routes"}
    ensures j.fields["pr"] == bolt11 && j.fields["routes"] == JArray([])
  {
    JObject(map["pr" := bolt11, "routes" := JArray([])])
  }

  /** `getinvoiceLNUrl()`: invalid amount fails first; otherwise one RPC call and
      the reduced response built from its `bolt11` field. */
  function PayRequest(q: PayQuery, token: string, rpc: InvoiceRpc): (r: Result<Json, HandlerError>)
    ensures q.amount.None? ==> r == Failure(InvalidAmount)
    ensures q.amount.Some? ==>
              var c := QueryFormCall(q, token).value;
              && (rpc(c).Failure? ==> r == Failure(UpstreamFailure(rpc(c).error)))
              && (rpc(c).Success? && rpc(c).value.JObject? && "bolt11" in rpc(c).value.fields ==>
                    r == Success(PayResponse(rpc(c).value.fields["bolt11"])))
              && (rpc(c).Success? && !(rpc(c).value.JObject? && "bolt11" in rpc(c).value.fields) ==>
                    r == Failure(NoBolt11))
    ensures r.Success? ==>
              var c := QueryFormCall(q, token).value;
              && rpc(c).Success?
              && rpc(c).value.JObject?
              && "bolt11" in rpc(c).value.fields
              && r.value == PayResponse(rpc(c).value.fields["bolt11"])
  {
    match QueryFormCall(q, token)
    case Failure(e) => Failure(e)
    case Success(c) =>
      match rpc(c)
      case Failure(m) => Failure(UpstreamFailure(m))
      case Success(invoice) =>
        if invoice.JObject? && "bolt11" in invoice.fields then Success(PayResponse(invoice.fields["bolt11"]))
        else Failure(NoBolt11)
  }

  /** An invalid amount is rejected without consulting the RPC at all: any two
      RPCs give the same answer. */
  lemma InvalidAmountCallsNothing(comment: Option<string>, token: string, rpc1: InvoiceRpc, rpc2: InvoiceRpc)
    ensures PayRequest(PayQuery(None, comment), token, rpc1) ==
            PayRequest(PayQuery(None, comment), token, rpc2) == Failure(InvalidAmount)
  {
  }

  /** With a parsed amount the RPC sees it unscaled, and the response keeps only
      the `bolt11` field of the invoice, whatever else the invoice carries. */
  lemma PayRequestForwards(amount: int, comment: Option<string>, token: string, rpc: InvoiceRpc)
    requires var c := InvoiceCall(amount, "ln-getinvoice-" + token, QueryDescription(comment));
             && rpc(c).Success? && rpc(c).value.JObject? && "bolt11" in rpc(c).value.fields
    ensures var c := InvoiceCall(amount, "ln-getinvoice-" + token, QueryDescription(comment));
            PayRequest(PayQuery(Some(amount), comment), token, rpc) ==
            Success(JObject(map["pr" := rpc(c).value.fields["bolt11"], "routes" := JArray([])]))
  {
  }

  /** A 1000-character comment reaches the RPC as exactly its first 640 characters. */
  lemma LongCommentTruncated(amount: int, comment: string, token: string)
    requires |comment| == 1000
    ensures QueryFormCall(PayQuery(Some(amount), Some(comment)), token).value.description == comment[..640]
  {
  }
}
