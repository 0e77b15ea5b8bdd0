/**
  `handle_orion_notification`, the `/notify` webhook: the Orion Context
  Broker reports a card read on an access point, and the service answers with
  an HTTP status and body and sends at most one `controlDoor` command to the
  access point's device.

  The handler is modelled as a function of the decoded notification, the
  authorisation map loaded for this request and the HTTP client (`post`).
  Python's runtime errors along the way (TypeError, KeyError) are the
  handler's `except Exception` branch: status 500.
 */
module Notification {
  import opened Wrappers
  import opened Json
  import opened Gateway
  import Authorization

  /** The single entity/device pair the service knows about. */
  const KnownEntity: string := "urn:ngsi-ld:AccessPoint:001"
  const KnownDevice: string := "esp32-access-001"

  /** The command provisioned on the device and its two values. */
  const ControlDoor: string := "controlDoor"
  const Granted: string := "GRANTED"
  const Denied: string := "DENIED"

  /** The three response bodies. */
  const Received: Value := Obj(map["status" := Str("notificacao recebida")])
  const MappingNotFound: Value :=
    Obj(map["status" := Str("erro"), "mensagem" := Str("Mapeamento entity/device n\U{00E3}o encontrado")])
  const InternalError: Value := Obj(map["status" := Str("erro interno")])

  /** What the handler answers, the command it dispatched on the way, and
      whether the IoT Agent accepted that command (which is only logged). */
  datatype Response = Response(status: int, body: Value, command: Option<Command>, accepted: Option<bool>)

  /** How the handler's `try` block ends. */
  datatype Step =
    | Skipped            // notification acknowledged, nothing sent
    | Rejected           // unknown entity
    | Dispatched(command: Command)
    | Raised             // an exception reached `except Exception`

  /** The fixed entity to device table: one entity, one device. */
  function DeviceFor(entityId: Value): (device: Option<string>)
    ensures device.Some? <==> entityId == Str(KnownEntity)
    ensures device.Some? ==> device.value == KnownDevice
  {
    if entityId == Str(KnownEntity) then Some(KnownDevice) else None
  }

  /** `card_id in autorizados`: a dictionary lookup, so an unhashable card id
      raises; a hashable one that is not a string matches no key. */
  function IsAuthorized(card: Value, authorized: map<string, string>): (r: Option<bool>)
    ensures r.None? <==> !Hashable(card)
    ensures r == Some(true) <==> card.Str? && card.s in authorized
  {
    if !Hashable(card) then None else Some(card.Str? && card.s in authorized)
  }

  /** A card read in the shape the broker is expected to send: `data` is a
      non-empty list whose first element is an object with `id`, `type` and a
      `lastCardRead` object holding `value`. */
  datatype Reading = Reading(entityId: Value, entityType: Value, card: Value)

  /** The reading carried by one update, if it has the expected shape. */
  function ReadingOfEntity(entity: Value): Option<Reading>
  {
    if entity.Obj? && "id" in entity.fields && "type" in entity.fields
       && "lastCardRead" in entity.fields && entity.fields["lastCardRead"].Obj?
       && "value" in entity.fields["lastCardRead"].fields
    then Some(Reading(entity.fields["id"], entity.fields["type"],
                      entity.fields["lastCardRead"].fields["value"]))
    else None
  }

  /** The notification is an object whose `data` is a non-empty list. */
  predicate HasUpdates(notification: Value)
  {
    notification.Obj? && "data" in notification.fields
    && notification.fields["data"].Arr? && |notification.fields["data"].items| > 0
  }

  function ReadingOf(notification: Value): Option<Reading>
  {
    if HasUpdates(notification) then ReadingOfEntity(notification.fields["data"].items[0]) else None
  }

  /** The notification the broker sends for one reading. */
  function Notify(r: Reading): (notification: Value)
    ensures ReadingOf(notification) == Some(r)
  {
    Obj(map["data" := Arr([Obj(map["id" := r.entityId, "type" := r.entityType,
                                   "lastCardRead" := Obj(map["value" := r.card])])])])
  }

  /** The command sent for a card read at a resolved device. */
  function DoorCommand(device: string, granted: bool): Command
  {
    Command(device, ControlDoor, if granted then Granted else Denied)
  }

  /** The handler's `try` block from the point where the first update has been
      taken out of `data`. */
  function DecideEntity(entity: Value, authorized: map<string, string>): (s: Step)
    ensures var reading := ReadingOfEntity(entity);
      s.Dispatched? <==> reading.Some? && reading.value.entityId == Str(KnownEntity) && Hashable(reading.value.card)
    ensures var reading := ReadingOfEntity(entity);
      s.Dispatched? ==>
        s.command == DoorCommand(KnownDevice, reading.value.card.Str? && reading.value.card.s in authorized)
    ensures var reading := ReadingOfEntity(entity);
      s.Rejected? <==> reading.Some? && reading.value.entityId != Str(KnownEntity)
    ensures var reading := ReadingOfEntity(entity);
      s.Raised? ==> reading.None? || !Hashable(reading.value.card)
    ensures (entity.Obj? &&
             (|| "id" !in entity.fields || "type" !in entity.fields || "lastCardRead" !in entity.fields
              || (entity.fields["lastCardRead"].Obj? && "value" !in entity.fields["lastCardRead"].fields))) ==>
      s.Skipped?
  {
    var hasFields :=
      AndThen(Contains(entity, "id"),
      AndThen(Contains(entity, "type"),
      AndThen(Contains(entity, "lastCardRead"),
              match Subscript(entity, "lastCardRead")
              case Some(lastCardRead) => Contains(lastCardRead, "value")
              case None => None)));
    match hasFields
    case None => Raised
    case Some(false) => Skipped
    case Some(true) =>
      match (Subscript(entity, "id"), Subscript(entity, "type"), Subscript(entity, "lastCardRead"))
      case (Some(entityId), Some(_), Some(lastCardRead)) =>
        (match Subscript(lastCardRead, "value")
         case None => Raised
         case Some(card) =>
           match DeviceFor(entityId)
           case None => Rejected
           case Some(device) =>
             match IsAuthorized(card, authorized)
             case None => Raised
             case Some(granted) => Dispatched(DoorCommand(device, granted)))
      case _ => Raised
  }

  /** The handler's whole `try` block. */
  function Decide(notification: Value, authorized: map<string, string>): (s: Step)
    ensures HasUpdates(notification) ==>
      s == DecideEntity(notification.fields["data"].items[0], authorized)
    ensures !HasUpdates(notification) ==> s.Skipped? || s.Raised?
    ensures (notification.Obj? &&
             ("data" !in notification.fields || Len(notification.fields["data"]) == Some(0))) ==>
      s.Skipped?
  {
    var hasData :=
      AndThen(Contains(notification, "data"),
              match Subscript(notification, "data")
              case Some(data) => (match Len(data) case Some(n) => Some(n > 0) case None => None)
              case None => None);
    match hasData
    case None => Raised
    case Some(false) => Skipped
    case Some(true) =>
      match Subscript(notification, "data")
      case None => Raised
      case Some(data) =>
        match First(data)
        case None => Raised
        case Some(entity) => DecideEntity(entity, authorized)
  }

  /** POST /notify. */
  function Handle(notification: Value, authorized: map<string, string>, post: Request -> bool): (r: Response)
    // the three possible answers
    ensures || (r.status == 200 && r.body == Received)
            || (r.status == 400 && r.body == MappingNotFound && r.command.None?)
            || (r.status == 500 && r.body == InternalError && r.command.None?)
    // a command goes out exactly for a well-formed read from the known entity
    // with a card id that can be looked up
    ensures r.command.Some? <==>
      ReadingOf(notification).Some? && ReadingOf(notification).value.entityId == Str(KnownEntity)
      && Hashable(ReadingOf(notification).value.card)
    // the built request for that command is what is posted, once
    ensures r.accepted.Some? <==> r.command.Some?
    ensures r.command.Some? ==> r.accepted == Some(post(BuildRequest(r.command.value)))
    // and it opens the door exactly when the card is a key of the map
    ensures r.command.Some? ==>
      var card := ReadingOf(notification).value.card;
      r.command.value == Command(KnownDevice, ControlDoor,
                                 if card.Str? && card.s in authorized then Granted else Denied)
    // the entity check is reached only for a well-formed read, and rejects
    // exactly the unknown entities
    ensures r.status == 400 ==> ReadingOf(notification).Some?
    ensures ReadingOf(notification).Some? ==>
      (r.status == 400 <==> ReadingOf(notification).value.entityId != Str(KnownEntity))
    // an internal error needs an unexpected shape
    ensures r.status == 500 ==>
      ReadingOf(notification).None? || !Hashable(ReadingOf(notification).value.card)
    // no data, or empty data: acknowledged, nothing sent
    ensures (notification.Obj? &&
             ("data" !in notification.fields || Len(notification.fields["data"]) == Some(0))) ==>
      r.status == 200 && r.command.None?
    // first update lacking id, type, lastCardRead or lastCardRead.value:
    // acknowledged, nothing sent
    ensures (&& notification.Obj? && "data" in notification.fields
             && notification.fields["data"].Arr? && |notification.fields["data"].items| > 0
             && notification.fields["data"].items[0].Obj?) ==>
      var fields := notification.fields["data"].items[0].fields;
      (|| "id" !in fields || "type" !in fields || "lastCardRead" !in fields
       || (fields["lastCardRead"].Obj? && "value" !in fields["lastCardRead"].fields)) ==>
      r.status == 200 && r.command.None?
  {
    match Decide(notification, authorized)
    case Skipped => Response(200, Received, None, None)
    case Rejected => Response(400, MappingNotFound, None, None)
    case Raised => Response(500, InternalError, None, None)
    case Dispatched(command) =>
      // whether the agent accepted the command does not change the answer
      Response(200, Received, Some(command), Some(Send(post, command)))
  }

  /** Whether the agent accepted the command or not, the broker gets the same
      answer. */
  lemma DispatchResultIgnored(notification: Value, authorized: map<string, string>,
                              post1: Request -> bool, post2: Request -> bool)
    ensures var r1, r2 := Handle(notification, authorized, post1), Handle(notification, authorized, post2);
      r1.status == r2.status && r1.body == r2.body && r1.command == r2.command
  {
  }

  /** Only the first update in `data` is looked at. */
  lemma OnlyFirstUpdateInspected(fields: map<string, Value>, first: Value, rest1: seq<Value>, rest2: seq<Value>,
                                 authorized: map<string, string>, post: Request -> bool)
    ensures Handle(Obj(fields["data" := Arr([first] + rest1)]), authorized, post)
         == Handle(Obj(fields["data" := Arr([first] + rest2)]), authorized, post)
  {
  }

  /** An unknown entity is rejected before the authorisation map is
      consulted: the answer does not depend on the map. */
  lemma UnknownEntityIgnoresAuthorization(notification: Value, authorized1: map<string, string>,
                                          authorized2: map<string, string>, post: Request -> bool)
    requires ReadingOf(notification).Some?
    requires ReadingOf(notification).value.entityId != Str(KnownEntity)
    ensures Handle(notification, authorized1, post) == Handle(notification, authorized2, post)
    ensures Handle(notification, authorized1, post) == Response(400, MappingNotFound, None, None)
  {
  }

  /** When the authorisation file cannot be read, every dispatched command
      keeps the door closed, and every well-formed read from the known entity
      dispatches exactly that. */
  lemma FailClosed(read: Authorization.FileRead, notification: Value, post: Request -> bool)
    requires !read.Decoded?
    ensures var r := Handle(notification, Authorization.Load(read), post);
      r.command.Some? ==> r.command.value == Command(KnownDevice, ControlDoor, Denied)
    ensures var reading := ReadingOf(notification);
      reading.Some? && reading.value.entityId == Str(KnownEntity) && reading.value.card.Str? ==>
      var r := Handle(notification, Authorization.Load(read), post);
      r.status == 200 && r.body == Received && r.command == Some(Command(KnownDevice, ControlDoor, Denied))
  {
  }

  /** A dispatched command reaches the known device's `controlDoor` endpoint
      on the IoT Agent, with the API key and device id as query parameters and
      the decision as the body. */
  lemma DispatchedRequest(notification: Value, authorized: map<string, string>, post: Request -> bool)
    ensures var r := Handle(notification, authorized, post);
      r.command.Some? ==>
        var req := BuildRequest(r.command.value);
        && ParseCommandUrl(req.url) == Some(Target(IotaHost, IotaAdminPort, KnownDevice, ControlDoor))
        && req.params == map["k" := ApiKey, "i" := KnownDevice]
        && (req.payload == Obj(map[ControlDoor := Str(Granted)]) || req.payload == Obj(map[ControlDoor := Str(Denied)]))
  {
    if Handle(notification, authorized, post).command.Some? {
      var card := ReadingOf(notification).value.card;
      DoorRequest(card.Str? && card.s in authorized);
    }
  }

  lemma DoorRequest(granted: bool)
    ensures var req := BuildRequest(DoorCommand(KnownDevice, granted));
      && ParseCommandUrl(req.url) == Some(Target(IotaHost, IotaAdminPort, KnownDevice, ControlDoor))
      && req.params == map["k" := ApiKey, "i" := KnownDevice]
      && req.payload == Obj(map[ControlDoor := Str(if granted then Granted else Denied)])
  {
  }

  /** The access point's reading of card ABC123, which belongs to Alice. */
  lemma KnownCardGranted(post: Request -> bool)
    ensures var r := Handle(Notify(Reading(Str(KnownEntity), Str("AccessPoint"), Str("ABC123"))), map["ABC123" := "Alice"], post);
      r.status == 200 && r.body == Received && r.command == Some(Command(KnownDevice, ControlDoor, Granted))
  {
  }

  /** The same access point reading an unknown card. */
  lemma UnknownCardDenied(post: Request -> bool)
    ensures var r := Handle(Notify(Reading(Str(KnownEntity), Str("AccessPoint"), Str("ZZZ999"))), map["ABC123" := "Alice"], post);
      r.status == 200 && r.body == Received && r.command == Some(Command(KnownDevice, ControlDoor, Denied))
  {
  }

  /** A reading from an access point that has no device. */
  lemma UnknownAccessPointRejected(post: Request -> bool)
    ensures Handle(Notify(Reading(Str("urn:ngsi-ld:AccessPoint:999"), Str("AccessPoint"), Str("ABC123"))),
                   map["ABC123" := "Alice"], post)
         == Response(400, MappingNotFound, None, None)
  {
  }

  /** A scalar that is not a string: `in` and `len` raise TypeError on it. */
  predicate Scalar(x: Value)
  {
    x.Null? || x.Bool? || x.Num?
  }

  /** A notification that is a scalar, a `data` that is a scalar, and a first
      update that is a scalar each end in the handler's `except` branch,
      whatever other fields the notification has and whatever follows the
      first update. */
  lemma MalformedNotificationsAreInternalErrors(x: Value, fields: map<string, Value>, rest: seq<Value>,
                                                authorized: map<string, string>, post: Request -> bool)
    requires Scalar(x)
    ensures Handle(x, authorized, post) == Response(500, InternalError, None, None)
    ensures Handle(Obj(fields["data" := x]), authorized, post) == Response(500, InternalError, None, None)
    ensures Handle(Obj(fields["data" := Arr([x] + rest)]), authorized, post) == Response(500, InternalError, None, None)
  {
  }

  /** A `lastCardRead` that is a scalar, in a first update that has `id` and
      `type`, and a card id from the known entity that cannot be a dictionary
      key, also end in the `except` branch. */
  lemma MalformedReadingsAreInternalErrors(fields: map<string, Value>, entity: map<string, Value>, rest: seq<Value>,
                                           entityType: Value, card: Value,
                                           authorized: map<string, string>, post: Request -> bool)
    requires "id" in entity && "type" in entity && "lastCardRead" in entity
    requires Scalar(entity["lastCardRead"])
    requires !Hashable(card)
    ensures Handle(Obj(fields["data" := Arr([Obj(entity)] + rest)]), authorized, post)
         == Response(500, InternalError, None, None)
    ensures Handle(Notify(Reading(Str(KnownEntity), entityType, card)), authorized, post)
         == Response(500, InternalError, None, None)
  {
  }
}
