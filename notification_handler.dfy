/**
 * The marketplace notification webhook (`main`). A POST from the Azure
 * Marketplace notification service reports the provisioning state of a
 * managed application; the handler records a succeeded deployment as an
 * entity of a tracking table and removes it again when the application is
 * deleted. Every step ends in a fixed HTTP status.
 *
 * The foreign calls are inputs (`Services`): whether the credential could be
 * built, what `ApplicationClient.get_by_id` returned, and whether the table
 * service failed. The table itself is the `rows` field of `TrackingTable`.
 */
module NotificationHandler {
  import opened Wrappers
  import opened ResourceIdParser

  /** A field of the JSON body: a string, or another JSON value together with Python's `str()` of it. */
  datatype Value = Str(s: string) | NonStr(text: string)

  /** What `req.get_json()` yields. */
  datatype Payload =
    | NotJson                            // get_json raises ValueError
    | NotObject                          // valid JSON but not an object: indexing it raises TypeError
    | Object(fields: map<string, Value>)

  /** The request, with the method as the HTTP binding reports it (upper case). */
  datatype Request = Request(httpMethod: string, payload: Payload)

  /**
   * What `ApplicationClient.get_by_id` yields: an exception, or the
   * application's `managed_resource_group_id`, which may be a string or,
   * when the service leaves it out, None (a `NonStr` value).
   */
  datatype Lookup = LookupFailed | Found(managedResourceGroupId: Value)

  /** What the foreign services answer during one invocation. */
  datatype Services = Services(
    credentialOk: bool,   // DefaultAzureCredential() returned a credential
    lookup: Lookup,       // the application details fetched for a deployment
    storeFault: bool)     // create_entity/delete_entity raise something other than ResourceExistsError

  /** A response body; `TextWithDetail(p)` is `p + ": "` followed by the text of a foreign exception. */
  datatype Body = NoBody | Text(text: string) | TextWithDetail(prefix: string)

  /** The result of `main`: a response, or an exception (TypeError) that escapes it. */
  datatype Reply = Http(status: nat, body: Body) | Raised

  /** The table key (PartitionKey, RowKey); the row key is the application name, which the id may lack. */
  datatype Key = Key(partitionKey: string, rowKey: Option<string>)

  /** The entity `main` inserts; its PartitionKey is the subscription id and its RowKey the application name. */
  datatype Entity = Entity(subscriptionId: string, appResourceGroupName: string, appName: Option<string>, mrgName: string)
  {
    function KeyOf(): Key {
      Key(subscriptionId, appName)
    }
  }

  type Table = map<Key, Entity>

  const Succeeded: Value := Str("Succeeded")
  const Deleted: Value := Str("Deleted")
  const Put: Value := Str("PUT")
  const Delete: Value := Str("DELETE")
  const OkReply: Reply := Http(200, Text("OK"))

  /** Python's `str()` of a field value, as an f-string renders it. */
  function PyStr(v: Value): string {
    match v
    case Str(s) => s
    case NonStr(text) => text
  }

  /** The 200 body for a provisioning state the handler does not act on. */
  function IgnoringMessage(state: Value): string {
    "Provisioning state is '" + PyStr(state) + "'. Ignoring event..."
  }

  /** The 400 response for a missing field: `str(KeyError(name))` is the quoted name. */
  function MissingFieldReply(name: string): Reply {
    Http(400, Text("Could not parse request: '" + name + "'"))
  }

  /** The body has the three fields `main` reads. */
  predicate HasEventFields(fields: map<string, Value>) {
    "applicationId" in fields && "eventType" in fields && "provisioningState" in fields
  }

  // ---------------------------------------------------------------------------
  // The table operations `main` relies on
  // ---------------------------------------------------------------------------

  /** `create_entity` followed by swallowing ResourceExistsError: an existing row is kept as it is. */
  function InsertIfAbsent(table: Table, e: Entity): (r: Table)
    ensures r.Keys == table.Keys + {e.KeyOf()}
    ensures r[e.KeyOf()] == if e.KeyOf() in table then table[e.KeyOf()] else e
    ensures forall k :: k in table && k != e.KeyOf() ==> r[k] == table[k]
  {
    if e.KeyOf() in table then table else table[e.KeyOf() := e]
  }

  datatype CreateOutcome = Created | AlreadyExists | CreateFailed
  datatype DeleteOutcome = Removed | NotFound | DeleteFailed

  /** The tracking table behind `TableClient`; it always exists. */
  class TrackingTable {
    var rows: Table

    constructor (initial: Table)
      ensures rows == initial
    {
      rows := initial;
    }

    /** `create_entity`: refused with ResourceExistsError when the key is taken. */
    method CreateEntity(entity: Entity, fault: bool) returns (outcome: CreateOutcome)
      modifies this
      ensures fault ==> outcome == CreateFailed && rows == old(rows)
      ensures !fault && entity.KeyOf() in old(rows) ==> outcome == AlreadyExists && rows == old(rows)
      ensures !fault && entity.KeyOf() !in old(rows) ==>
        outcome == Created && rows == old(rows)[entity.KeyOf() := entity]
    {
      if fault {
        outcome := CreateFailed;
      } else if entity.KeyOf() in rows {
        outcome := AlreadyExists;
      } else {
        rows := rows[entity.KeyOf() := entity];
        outcome := Created;
      }
    }

    /** `delete_entity`: a missing row is not an error. */
    method DeleteEntity(key: Key, fault: bool) returns (outcome: DeleteOutcome)
      modifies this
      ensures fault ==> outcome == DeleteFailed && rows == old(rows)
      ensures !fault ==> outcome == (if key in old(rows) then Removed else NotFound)
      ensures !fault ==> rows == old(rows) - {key}
    {
      if fault {
        outcome := DeleteFailed;
      } else if key in rows {
        rows := rows - {key};
        outcome := Removed;
      } else {
        outcome := NotFound;
      }
    }
  }

  // ---------------------------------------------------------------------------
  // The decision procedure, as a specification
  // ---------------------------------------------------------------------------

  /** What one invocation does: answer without touching the table, insert, or delete. */
  datatype Decision = Finish(reply: Reply) | Insert(entity: Entity) | Remove(key: Key)

  /** The checks of `main` in source order, up to the table call. */
  function Decide(req: Request, services: Services): Decision {
    if req.httpMethod != "POST" then Finish(Http(405, NoBody))
    else if !services.credentialOk then Finish(Http(500, TextWithDetail("Could not authenticate")))
    else
      match req.payload
      case NotJson => Finish(Http(400, TextWithDetail("Could not parse request")))
      case NotObject => Finish(Raised)
      case Object(fields) =>
        if "applicationId" !in fields then Finish(MissingFieldReply("applicationId"))
        else if "eventType" !in fields then Finish(MissingFieldReply("eventType"))
        else if "provisioningState" !in fields then Finish(MissingFieldReply("provisioningState"))
        else DecideEvent(fields["applicationId"], fields["eventType"], fields["provisioningState"], services)
  }

  /** The checks after the body was read: the id, the provisioning state, and the event. */
  function DecideEvent(applicationId: Value, eventType: Value, state: Value, services: Services): Decision {
    match applicationId
    case NonStr(_) => Finish(Raised)  // re.match raises TypeError, which nothing catches
    case Str(id) =>
      match ParseResourceId(id)
      case Err(e) => Finish(Http(500, Text("Error obtaining app subscription and resource group: " + e)))
      case Ok(app) => DecideParsedEvent(app, eventType, state, services)
  }

  /** The provisioning-state filter and the event dispatch, once the application id was parsed. */
  function DecideParsedEvent(app: ResourceId, eventType: Value, state: Value, services: Services): Decision {
    if state != Succeeded && state != Deleted then Finish(Http(200, Text(IgnoringMessage(state))))
    else if state == Succeeded && eventType == Put then DecideDeployment(app, services)
    else if state == Deleted && eventType == Delete then Remove(Key(app.subscriptionId, app.applicationName))
    else Finish(OkReply)
  }

  /** (Succeeded, PUT): look the application up and build the entity from its managed resource group. */
  function DecideDeployment(app: ResourceId, services: Services): Decision {
    match services.lookup
    case LookupFailed => Finish(Http(500, TextWithDetail("Failed to obtain managed application details")))
    case Found(NonStr(_)) => Finish(Raised)  // re.match raises TypeError, which `except ValueError` lets through
    case Found(Str(mrgId)) =>
      match ParseResourceId(mrgId)
      case Err(e) => Finish(Http(500, Text("Error obtaining the mrg name: " + e)))
      case Ok(mrg) => Insert(Entity(app.subscriptionId, app.resourceGroup, app.applicationName, mrg.resourceGroup))
  }

  datatype Outcome = Outcome(reply: Reply, table: Table)

  /** The table call a decision makes, and the reply that follows it. */
  function Apply(table: Table, d: Decision, storeFault: bool): Outcome {
    match d
    case Finish(reply) => Outcome(reply, table)
    case Insert(e) =>
      if storeFault then Outcome(Http(500, TextWithDetail("Error trying to add entity")), table)
      else Outcome(OkReply, InsertIfAbsent(table, e))
    case Remove(k) =>
      if storeFault then Outcome(Http(500, TextWithDetail("Error trying to delete entity")), table)
      else Outcome(OkReply, table - {k})
  }

  /** One invocation of `main` on a table. */
  function Handle(table: Table, req: Request, services: Services): Outcome {
    Apply(table, Decide(req, services), services.storeFault)
  }

  // ---------------------------------------------------------------------------
  // The handler
  // ---------------------------------------------------------------------------

  /** `main`: the early returns of the source, with the table calls made on `table`. */
  method HandleNotification(req: Request, services: Services, table: TrackingTable) returns (reply: Reply)
    modifies table
    ensures Outcome(reply, table.rows) == Handle(old(table.rows), req, services)
  {
    if req.httpMethod != "POST" {
      return Http(405, NoBody);
    }
    if !services.credentialOk {
      return Http(500, TextWithDetail("Could not authenticate"));
    }
    var fields: map<string, Value>;
    match req.payload {
      case NotJson =>
        return Http(400, TextWithDetail("Could not parse request"));
      case NotObject =>
        return Raised;
      case Object(f) =>
        fields := f;
    }
    if "applicationId" !in fields {
      return MissingFieldReply("applicationId");
    }
    if "eventType" !in fields {
      return MissingFieldReply("eventType");
    }
    if "provisioningState" !in fields {
      return MissingFieldReply("provisioningState");
    }
    reply := HandleEvent(fields["applicationId"], fields["eventType"], fields["provisioningState"], services, table);
  }

  /**
   * The (Succeeded, PUT) branch of `main`: fetch the application, parse its
   * managed resource group id and insert the entity. Returns the error
   * response of a failed step, or None when `main` goes on.
   */
  method RecordDeployment(app: ResourceId, services: Services, table: TrackingTable) returns (failure: Option<Reply>)
    modifies table
    ensures var out := Apply(old(table.rows), DecideDeployment(app, services), services.storeFault);
      && table.rows == out.table
      && (if out.reply == OkReply then failure == None else failure == Some(out.reply))
  {
    if services.lookup.LookupFailed? {
      return Some(Http(500, TextWithDetail("Failed to obtain managed application details")));
    }
    if services.lookup.managedResourceGroupId.NonStr? {
      return Some(Raised);
    }
    var mrgId := services.lookup.managedResourceGroupId.s;
    var mrg := ParseResourceId(mrgId);
    if mrg.Err? {
      assert DecideDeployment(app, services) == Finish(Http(500, Text("Error obtaining the mrg name: " + mrg.message)));
      return Some(Http(500, Text("Error obtaining the mrg name: " + mrg.message)));
    }
    var entity := Entity(app.subscriptionId, app.resourceGroup, app.applicationName, mrg.value.resourceGroup);
    assert DecideDeployment(app, services) == Insert(entity);
    failure := InsertEntity(entity, services.storeFault, table);
  }

  /** The `create_entity` call of the (Succeeded, PUT) branch, with ResourceExistsError swallowed. */
  method InsertEntity(entity: Entity, storeFault: bool, table: TrackingTable) returns (failure: Option<Reply>)
    modifies table
    ensures var out := Apply(old(table.rows), Insert(entity), storeFault);
      && table.rows == out.table
      && (if out.reply == OkReply then failure == None else failure == Some(out.reply))
  {
    var created := table.CreateEntity(entity, storeFault);
    if created == CreateFailed {
      return Some(Http(500, TextWithDetail("Error trying to add entity")));
    }
    return None;
  }

  /** The rest of `main` once the three fields were read: parse the application id, then dispatch. */
  method HandleEvent(applicationId: Value, eventType: Value, state: Value, services: Services, table: TrackingTable)
    returns (reply: Reply)
    modifies table
    ensures Outcome(reply, table.rows)
         == Apply(old(table.rows), DecideEvent(applicationId, eventType, state, services), services.storeFault)
  {
    if applicationId.NonStr? {
      return Raised;
    }
    var parsed := ParseResourceId(applicationId.s);
    if parsed.Err? {
      return Http(500, Text("Error obtaining app subscription and resource group: " + parsed.message));
    }
    reply := HandleParsedEvent(parsed.value, eventType, state, services, table);
  }

  /** The state filter of `main` and its two table calls. */
  method HandleParsedEvent(app: ResourceId, eventType: Value, state: Value, services: Services, table: TrackingTable)
    returns (reply: Reply)
    modifies table
    ensures Outcome(reply, table.rows)
         == Apply(old(table.rows), DecideParsedEvent(app, eventType, state, services), services.storeFault)
  {
    if state != Succeeded && state != Deleted {
      return Http(200, Text(IgnoringMessage(state)));
    }

    if state == Succeeded && eventType == Put {
      var failure := RecordDeployment(app, services, table);
      if failure.Some? {
        return failure.value;
      }
    } else if state == Deleted && eventType == Delete {
      var removed := table.DeleteEntity(Key(app.subscriptionId, app.applicationName), services.storeFault);
      if removed == DeleteFailed {
        return Http(500, TextWithDetail("Error trying to delete entity"));
      }
    }

    return OkReply;
  }
}
