/** The admin HTTP handlers (backend/src/controllers/admin.controller.js):
    each reads its route parameter, the caller's id and the request body,
    then either refuses the request or delegates to one service call. The
    service is the parameter `service`; what it does is modelled in
    `AdminService` (the quote-negotiation calls have no implementation in
    the code base and stay abstract). */
module AdminController {
  import opened Common

  /** One delegation to the admin service, with the arguments passed. */
  datatype AdminCall =
    | ApproveOwnerCall(ownerId: string, actorId: string)
    | SummaryCall
    | PendingBusesCall
    | ApproveBusCall(busId: string, actorId: string, note: Option<Json>)
    | RejectBusCall(busId: string, actorId: string, note: Option<Json>)
    | QuoteRequestsCall
    | UpdateNegotiationCall(bookingId: string, actorId: string, payload: Json)
    | LockOwnerPayoutCall(bookingId: string, actorId: string, ownerPayoutPrice: Json)
    | LockUserPriceCall(bookingId: string, actorId: string, userFinalPrice: Json)

  /** What a handler decides before any service call. */
  datatype Dispatch = Invoke(call: AdminCall) | Refuse(error: Error)

  /** What the handler finally does: answer with JSON, or hand the error to
      `next` without answering. */
  datatype Reply = SendJson(value: Json) | PassToNext(error: Error)

  /** `req.body ?? {}`: an absent or null body reads as the empty object. */
  function BodyOrEmpty(body: Option<Json>): (r: Json)
    ensures Nullish(body) ==> r == JObj(map[])
    ensures !Nullish(body) ==> r == body.value
  {
    if Nullish(body) then JObj(map[]) else body.value
  }

  /** `const { key } = req.body ?? {}`. */
  function BodyField(body: Option<Json>, key: string): (r: Option<Json>)
    ensures Nullish(body) ==> r.None?
    ensures !Nullish(body) ==> r == Field(body.value, key)
  {
    Field(BodyOrEmpty(body), key)
  }

  /** `approveBus`: any body, even none, is accepted; its `note` is passed on. */
  function ApproveBus(busId: string, actorId: string, body: Option<Json>): (d: Dispatch)
    ensures d.Invoke? && d.call.ApproveBusCall? && d.call.busId == busId && d.call.actorId == actorId
    ensures Nullish(body) ==> d.call.note.None?
    ensures !Nullish(body) && body.value.JObj? && "note" in body.value.fields ==> d.call.note == Some(body.value.fields["note"])
  {
    Invoke(ApproveBusCall(busId, actorId, BodyField(body, "note")))
  }

  /** `rejectBus`: as `approveBus`. */
  function RejectBus(busId: string, actorId: string, body: Option<Json>): (d: Dispatch)
    ensures d.Invoke? && d.call.RejectBusCall? && d.call.busId == busId && d.call.actorId == actorId
    ensures Nullish(body) ==> d.call.note.None?
    ensures !Nullish(body) && body.value.JObj? && "note" in body.value.fields ==> d.call.note == Some(body.value.fields["note"])
  {
    Invoke(RejectBusCall(busId, actorId, BodyField(body, "note")))
  }

  /** `updateQuoteNegotiation`: the body, or `{}`, is forwarded unchanged. */
  function UpdateQuoteNegotiation(bookingId: string, actorId: string, body: Option<Json>): (d: Dispatch)
    ensures d.Invoke? && d.call.UpdateNegotiationCall? && d.call.bookingId == bookingId && d.call.actorId == actorId
    ensures !Nullish(body) ==> d.call.payload == body.value
    ensures Nullish(body) ==> d.call.payload == JObj(map[])
  {
    Invoke(UpdateNegotiationCall(bookingId, actorId, BodyOrEmpty(body)))
  }

  /** `lockOwnerPayout`: a null or absent `ownerPayoutPrice` is refused with
      400 before the service is reached; every other value is forwarded. */
  function LockOwnerPayout(bookingId: string, actorId: string, body: Option<Json>): (d: Dispatch)
    ensures Nullish(BodyField(body, "ownerPayoutPrice")) <==> d == Refuse(Http(400, "ownerPayoutPrice required"))
    ensures d.Invoke? ==>
      d.call == LockOwnerPayoutCall(bookingId, actorId, BodyField(body, "ownerPayoutPrice").value)
  {
    var price := BodyField(body, "ownerPayoutPrice");
    if Nullish(price) then Refuse(Http(400, "ownerPayoutPrice required"))
    else Invoke(LockOwnerPayoutCall(bookingId, actorId, price.value))
  }

  /** `lockUserPrice`: the same guard on `userFinalPrice`. */
  function LockUserPrice(bookingId: string, actorId: string, body: Option<Json>): (d: Dispatch)
    ensures Nullish(BodyField(body, "userFinalPrice")) <==> d == Refuse(Http(400, "userFinalPrice required"))
    ensures d.Invoke? ==>
      d.call == LockUserPriceCall(bookingId, actorId, BodyField(body, "userFinalPrice").value)
  {
    var price := BodyField(body, "userFinalPrice");
    if Nullish(price) then Refuse(Http(400, "userFinalPrice required"))
    else Invoke(LockUserPriceCall(bookingId, actorId, price.value))
  }

  /** A price of zero is not null: it reaches the service. */
  lemma ZeroPricePasses(bookingId: string, actorId: string)
    ensures var body := Some(JObj(map["ownerPayoutPrice" := JNum(0.0)]));
            LockOwnerPayout(bookingId, actorId, body) == Invoke(LockOwnerPayoutCall(bookingId, actorId, JNum(0.0)))
    ensures var body := Some(JObj(map["userFinalPrice" := JNum(0.0)]));
            LockUserPrice(bookingId, actorId, body) == Invoke(LockUserPriceCall(bookingId, actorId, JNum(0.0)))
  {
    var b1 := JObj(map["ownerPayoutPrice" := JNum(0.0)]);
    assert Field(b1, "ownerPayoutPrice") == Some(JNum(0.0));
    var b2 := JObj(map["userFinalPrice" := JNum(0.0)]);
    assert Field(b2, "userFinalPrice") == Some(JNum(0.0));
  }

  /** The `try`/`catch` every handler shares: a refusal or a failed call goes
      to `next`; only a successful call is answered. */
  function Handle(d: Dispatch, service: AdminCall -> Result<Json>): (r: Reply)
    ensures d.Refuse? ==> r == PassToNext(d.error)
    ensures d.Invoke? && service(d.call).Err? ==> r == PassToNext(service(d.call).error)
    ensures r.SendJson? <==> d.Invoke? && service(d.call).Ok?
    ensures r.SendJson? ==> r.value == service(d.call).value
  {
    match d
    case Refuse(e) => PassToNext(e)
    case Invoke(c) =>
      match service(c)
      case Ok(v) => SendJson(v)
      case Err(e) => PassToNext(e)
  }

  /** A refused lock never depends on the service: whatever it would do, the
      reply is the same 400. */
  lemma RefusalIgnoresService(bookingId: string, actorId: string, body: Option<Json>,
                              s1: AdminCall -> Result<Json>, s2: AdminCall -> Result<Json>)
    requires Nullish(BodyField(body, "ownerPayoutPrice"))
    ensures Handle(LockOwnerPayout(bookingId, actorId, body), s1) == Handle(LockOwnerPayout(bookingId, actorId, body), s2)
    ensures Handle(LockOwnerPayout(bookingId, actorId, body), s1) == PassToNext(Http(400, "ownerPayoutPrice required"))
  {
  }
}
