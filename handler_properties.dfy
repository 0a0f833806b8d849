/**
 * What one invocation of the notification webhook does to its reply and to
 * the tracking table, stated over the specification `Handle` that the
 * `HandleNotification` method is proved against.
 */
module HandlerProperties {
  import opened Wrappers
  import opened ResourceIdParser
  import opened NotificationHandler

  /** `req` is a POST whose JSON body holds the three event fields, the application id being a string. */
  predicate ReadsEvent(req: Request, applicationId: string, eventType: Value, state: Value) {
    && req.httpMethod == "POST"
    && req.payload.Object?
    && HasEventFields(req.payload.fields)
    && req.payload.fields["applicationId"] == Str(applicationId)
    && req.payload.fields["eventType"] == eventType
    && req.payload.fields["provisioningState"] == state
  }

  /** The one key an invocation may touch: (subscription id, application name) of the parsed application id. */
  function EventKey(req: Request): Option<Key> {
    match req.payload
    case Object(fields) =>
      if "applicationId" in fields && fields["applicationId"].Str? then
        match ParseResourceId(fields["applicationId"].s)
        case Ok(app) => Some(Key(app.subscriptionId, app.applicationName))
        case Err(_) => None
      else None
    case _ => None
  }

  /** A response status the handler uses. */
  predicate KnownStatus(r: Reply) {
    r.Http? ==> r.status in {200, 400, 405, 500}
  }

  /** What a decision may be, given the key of the application it concerns. */
  predicate DecisionFor(d: Decision, key: Option<Key>) {
    match d
    case Finish(r) => KnownStatus(r)
    case Insert(e) => key == Some(e.KeyOf())
    case Remove(k) => key == Some(k)
  }

  // ---------------------------------------------------------------------------
  // From the request to the event
  // ---------------------------------------------------------------------------

  /** Past the method, credential and body checks, `main` acts on the three fields. */
  lemma DecideReadsFields(req: Request, services: Services)
    requires req.httpMethod == "POST" && services.credentialOk
    requires req.payload.Object? && HasEventFields(req.payload.fields)
    ensures var f := req.payload.fields;
      Decide(req, services) == DecideEvent(f["applicationId"], f["eventType"], f["provisioningState"], services)
  {
  }

  /** Once the application id parses, `main` acts on the parsed id. */
  lemma DecideEventOfParsed(applicationId: string, eventType: Value, state: Value, services: Services, app: ResourceId)
    requires ParseResourceId(applicationId) == Ok(app)
    ensures DecideEvent(Str(applicationId), eventType, state, services) == DecideParsedEvent(app, eventType, state, services)
  {
  }

  /**
   * The (Succeeded, PUT) branch inserts the entity keyed by the application,
   * answers 500, or raises exactly when the lookup returned no group id.
   */
  lemma DeploymentDecision(app: ResourceId, services: Services)
    ensures DecisionFor(DecideDeployment(app, services), Some(Key(app.subscriptionId, app.applicationName)))
    ensures var d := DecideDeployment(app, services);
      && (d == Finish(Raised) <==> services.lookup.Found? && services.lookup.managedResourceGroupId.NonStr?)
      && (d.Finish? && d.reply != Raised ==> d.reply.Http? && d.reply.status == 500)
  {
  }

  /** A deployment notification with a parseable application id is decided by the (Succeeded, PUT) branch. */
  lemma DecideDeploymentEvent(req: Request, services: Services, applicationId: string, app: ResourceId)
    requires ReadsEvent(req, applicationId, Put, Succeeded) && services.credentialOk
    requires ParseResourceId(applicationId) == Ok(app)
    ensures Decide(req, services) == DecideDeployment(app, services)
  {
    DecideReadsFields(req, services);
    DecideEventOfParsed(applicationId, Put, Succeeded, services, app);
    assert DecideParsedEvent(app, Put, Succeeded, services) == DecideDeployment(app, services);
  }

  /** With a managed resource group id that parses, the (Succeeded, PUT) branch inserts the entity built from it. */
  lemma DeploymentInserts(app: ResourceId, services: Services, mrgId: string, mrg: ResourceId)
    requires services.lookup == Found(Str(mrgId)) && ParseResourceId(mrgId) == Ok(mrg)
    ensures DecideDeployment(app, services)
         == Insert(Entity(app.subscriptionId, app.resourceGroup, app.applicationName, mrg.resourceGroup))
  {
  }

  /** After the parse, `main` answers with a known status or touches the application's key. */
  lemma ParsedEventDecision(app: ResourceId, eventType: Value, state: Value, services: Services)
    ensures DecisionFor(DecideParsedEvent(app, eventType, state, services), Some(Key(app.subscriptionId, app.applicationName)))
  {
    if state == Succeeded && eventType == Put {
      DeploymentDecision(app, services);
    }
  }

  /** Every decision answers with a known status or touches the key `EventKey` names. */
  lemma DecideDecision(req: Request, services: Services)
    ensures DecisionFor(Decide(req, services), EventKey(req))
  {
    if req.httpMethod == "POST" && services.credentialOk && req.payload.Object? && HasEventFields(req.payload.fields) {
      var f := req.payload.fields;
      DecideReadsFields(req, services);
      if f["applicationId"].Str? {
        var id := f["applicationId"].s;
        var parsed := ParseResourceId(id);
        if parsed.Ok? {
          DecideEventOfParsed(id, f["eventType"], f["provisioningState"], services, parsed.value);
          ParsedEventDecision(parsed.value, f["eventType"], f["provisioningState"], services);
        }
      }
    }
  }

  // ---------------------------------------------------------------------------
  // The early returns
  // ---------------------------------------------------------------------------

  /** Anything but POST is refused with 405, whatever the credential, the body or the table. */
  lemma NonPostRefused(table: Table, req: Request, services: Services)
    requires req.httpMethod != "POST"
    ensures Handle(table, req, services) == Outcome(Http(405, NoBody), table)
  {
  }

  /** A credential that cannot be built gives 500 before the body is read. */
  lemma CredentialFailure(table: Table, req: Request, services: Services)
    requires req.httpMethod == "POST" && !services.credentialOk
    ensures Handle(table, req, services) == Outcome(Http(500, TextWithDetail("Could not authenticate")), table)
  {
  }

  /** The first of the three fields, in the order `main` reads them, that `fields` lacks. */
  function FirstMissingField(fields: map<string, Value>): string {
    if "applicationId" !in fields then "applicationId"
    else if "eventType" !in fields then "eventType"
    else "provisioningState"
  }

  /**
   * A body that is not JSON, or a JSON object without one of the three
   * fields, gives 400 "Could not parse request: ..."; for a missing field the
   * detail is the KeyError of the first field missing.
   */
  lemma MalformedBodyIs400(table: Table, req: Request, services: Services)
    requires req.httpMethod == "POST" && services.credentialOk
    requires req.payload.NotJson? || (req.payload.Object? && !HasEventFields(req.payload.fields))
    ensures Handle(table, req, services).reply.Http?
    ensures Handle(table, req, services).reply.status == 400
    ensures Handle(table, req, services).reply
         == if req.payload.NotJson? then Http(400, TextWithDetail("Could not parse request"))
            else MissingFieldReply(FirstMissingField(req.payload.fields))
    ensures Handle(table, req, services).table == table
  {
  }

  /** An application id that does not parse gives 500 with the parser's message. */
  lemma UnparseableApplicationId(table: Table, req: Request, services: Services,
                                 applicationId: string, eventType: Value, state: Value)
    requires ReadsEvent(req, applicationId, eventType, state) && services.credentialOk
    requires ParseResourceId(applicationId).Err?
    ensures Handle(table, req, services)
         == Outcome(Http(500, Text("Error obtaining app subscription and resource group: " + ParseErrorMessage)), table)
  {
  }

  /** A provisioning state other than Succeeded or Deleted is acknowledged with 200 and ignored. */
  lemma OtherStatesIgnored(table: Table, req: Request, services: Services,
                           applicationId: string, eventType: Value, state: Value)
    requires ReadsEvent(req, applicationId, eventType, state) && services.credentialOk
    requires ParseResourceId(applicationId).Ok?
    requires state != Succeeded && state != Deleted
    ensures Handle(table, req, services) == Outcome(Http(200, Text(IgnoringMessage(state))), table)
  {
    DecideReadsFields(req, services);
    DecideEventOfParsed(applicationId, eventType, state, services, ParseResourceId(applicationId).value);
  }

  // ---------------------------------------------------------------------------
  // The two table calls
  // ---------------------------------------------------------------------------

  /**
   * (Succeeded, PUT) with a parseable managed resource group id records the
   * entity keyed by (subscription id, application name) unless that key is
   * taken, and answers 200 OK either way.
   */
  lemma DeploymentRecorded(table: Table, req: Request, services: Services,
                           applicationId: string, app: ResourceId, mrgId: string, mrg: ResourceId)
    requires ReadsEvent(req, applicationId, Put, Succeeded) && services.credentialOk
    requires ParseResourceId(applicationId) == Ok(app)
    requires services.lookup == Found(Str(mrgId)) && ParseResourceId(mrgId) == Ok(mrg)
    requires !services.storeFault
    ensures var e := Entity(app.subscriptionId, app.resourceGroup, app.applicationName, mrg.resourceGroup);
      && Handle(table, req, services).reply == OkReply
      && Handle(table, req, services).table == InsertIfAbsent(table, e)
      && e.KeyOf() == Key(app.subscriptionId, app.applicationName)
  {
    DecideDeploymentEvent(req, services, applicationId, app);
    DeploymentInserts(app, services, mrgId, mrg);
    var e := Entity(app.subscriptionId, app.resourceGroup, app.applicationName, mrg.resourceGroup);
    assert Handle(table, req, services) == Apply(table, Insert(e), false);
  }

  /** A repeated deployment notification keeps the existing entity as it is and still answers 200 OK. */
  lemma ExistingEntityKept(table: Table, req: Request, services: Services,
                           applicationId: string, app: ResourceId, mrgId: string, mrg: ResourceId)
    requires ReadsEvent(req, applicationId, Put, Succeeded) && services.credentialOk
    requires ParseResourceId(applicationId) == Ok(app)
    requires services.lookup == Found(Str(mrgId)) && ParseResourceId(mrgId) == Ok(mrg)
    requires !services.storeFault
    requires Key(app.subscriptionId, app.applicationName) in table
    ensures Handle(table, req, services) == Outcome(OkReply, table)
  {
    DecideDeploymentEvent(req, services, applicationId, app);
    DeploymentInserts(app, services, mrgId, mrg);
  }

  /**
   * (Succeeded, PUT) whose application lookup fails, or whose managed
   * resource group id does not parse, gives 500 and inserts nothing.
   */
  lemma DeploymentLookupFails(table: Table, req: Request, services: Services,
                              applicationId: string, app: ResourceId)
    requires ReadsEvent(req, applicationId, Put, Succeeded) && services.credentialOk
    requires ParseResourceId(applicationId) == Ok(app)
    requires || services.lookup.LookupFailed?
             || (services.lookup.managedResourceGroupId.Str?
                 && ParseResourceId(services.lookup.managedResourceGroupId.s).Err?)
    ensures Handle(table, req, services).table == table
    ensures Handle(table, req, services).reply
         == if services.lookup.LookupFailed?
            then Http(500, TextWithDetail("Failed to obtain managed application details"))
            else Http(500, Text("Error obtaining the mrg name: " + ParseErrorMessage))
  {
    DecideDeploymentEvent(req, services, applicationId, app);
  }

  /**
   * (Succeeded, PUT) whose application comes back without a managed resource
   * group id: parsing None raises a TypeError that escapes `main`, and
   * nothing is inserted.
   */
  lemma MissingGroupIdRaises(table: Table, req: Request, services: Services,
                             applicationId: string, app: ResourceId, text: string)
    requires ReadsEvent(req, applicationId, Put, Succeeded) && services.credentialOk
    requires ParseResourceId(applicationId) == Ok(app)
    requires services.lookup == Found(NonStr(text))
    ensures Handle(table, req, services) == Outcome(Raised, table)
  {
    DecideDeploymentEvent(req, services, applicationId, app);
  }

  /** (Deleted, DELETE) removes exactly the application's key and answers 200 OK. */
  lemma DeletionRemovesKey(table: Table, req: Request, services: Services,
                           applicationId: string, app: ResourceId)
    requires ReadsEvent(req, applicationId, Delete, Deleted) && services.credentialOk
    requires ParseResourceId(applicationId) == Ok(app)
    requires !services.storeFault
    ensures Handle(table, req, services) == Outcome(OkReply, table - {Key(app.subscriptionId, app.applicationName)})
  {
    DecideReadsFields(req, services);
    DecideEventOfParsed(applicationId, Delete, Deleted, services, app);
  }

  /**
   * A failing table call gives 500 "Error trying to add entity: ..." or
   * "Error trying to delete entity: ..." and leaves the table as it was.
   */
  lemma StoreFaultChangesNothing(table: Table, req: Request, services: Services)
    requires services.storeFault
    ensures Handle(table, req, services).table == table
    ensures Decide(req, services).Insert? ==>
      Handle(table, req, services).reply == Http(500, TextWithDetail("Error trying to add entity"))
    ensures Decide(req, services).Remove? ==>
      Handle(table, req, services).reply == Http(500, TextWithDetail("Error trying to delete entity"))
    ensures Handle(table, req, services).reply == OkReply ==> Decide(req, services) == Finish(OkReply)
  {
  }

  /** (Deleted, DELETE) whose delete call fails gives 500 and leaves the table as it was. */
  lemma DeletionFails(table: Table, req: Request, services: Services,
                      applicationId: string, app: ResourceId)
    requires ReadsEvent(req, applicationId, Delete, Deleted) && services.credentialOk
    requires ParseResourceId(applicationId) == Ok(app)
    requires services.storeFault
    ensures Handle(table, req, services) == Outcome(Http(500, TextWithDetail("Error trying to delete entity")), table)
  {
    DecideReadsFields(req, services);
    DecideEventOfParsed(applicationId, Delete, Deleted, services, app);
  }

  /** (Succeeded, PUT) whose insert call fails gives 500 and leaves the table as it was. */
  lemma InsertFails(table: Table, req: Request, services: Services,
                    applicationId: string, app: ResourceId, mrgId: string)
    requires ReadsEvent(req, applicationId, Put, Succeeded) && services.credentialOk
    requires ParseResourceId(applicationId) == Ok(app)
    requires services.lookup == Found(Str(mrgId)) && ParseResourceId(mrgId).Ok?
    requires services.storeFault
    ensures Handle(table, req, services) == Outcome(Http(500, TextWithDetail("Error trying to add entity")), table)
  {
    DecideDeploymentEvent(req, services, applicationId, app);
    DeploymentInserts(app, services, mrgId, ParseResourceId(mrgId).value);
  }

  /** The mixed pairs (Succeeded, not PUT) and (Deleted, not DELETE) are acknowledged and change nothing. */
  lemma MixedPairsAcknowledged(table: Table, req: Request, services: Services,
                               applicationId: string, eventType: Value, state: Value)
    requires ReadsEvent(req, applicationId, eventType, state) && services.credentialOk
    requires ParseResourceId(applicationId).Ok?
    requires (state == Succeeded && eventType != Put) || (state == Deleted && eventType != Delete)
    ensures Handle(table, req, services) == Outcome(OkReply, table)
  {
    DecideReadsFields(req, services);
    DecideEventOfParsed(applicationId, eventType, state, services, ParseResourceId(applicationId).value);
  }

  // ---------------------------------------------------------------------------
  // Properties of every invocation
  // ---------------------------------------------------------------------------

  /** Every response carries one of the four statuses the handler uses. */
  lemma StatusesUsed(table: Table, req: Request, services: Services)
    ensures var r := Handle(table, req, services).reply;
      r.Http? ==> r.status in {200, 400, 405, 500}
  {
    DecideDecision(req, services);
  }

  /** The table changes only on a 200 OK: every error, and the escaping TypeError, leaves it untouched. */
  lemma ChangeOnlyOnSuccess(table: Table, req: Request, services: Services)
    ensures Handle(table, req, services).table != table ==> Handle(table, req, services).reply == OkReply
  {
  }

  /** No invocation adds, removes or alters any key but the one named by its application id. */
  lemma OnlyEventKeyChanges(table: Table, req: Request, services: Services, k: Key)
    requires EventKey(req) != Some(k)
    ensures var t := Handle(table, req, services).table;
      && (k in t <==> k in table)
      && (k in table ==> t[k] == table[k])
  {
    DecideDecision(req, services);
    ApplyKeepsOtherKeys(table, Decide(req, services), services.storeFault, EventKey(req), k);
  }

  /** Carrying out a decision about `key` leaves every other key as it was. */
  lemma ApplyKeepsOtherKeys(table: Table, d: Decision, storeFault: bool, key: Option<Key>, k: Key)
    requires DecisionFor(d, key) && key != Some(k)
    ensures var t := Apply(table, d, storeFault).table;
      && (k in t <==> k in table)
      && (k in table ==> t[k] == table[k])
  {
  }

  /**
   * The notification service retries a notification until it gets a 200;
   * handling the same notification again, with the services answering the
   * same, gives the same reply and the same table.
   */
  lemma RetryIdempotent(table: Table, req: Request, services: Services)
    ensures var first := Handle(table, req, services);
      Handle(first.table, req, services) == first
  {
  }
}
