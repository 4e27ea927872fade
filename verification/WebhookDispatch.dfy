/** Endpoint selection of one webhook event, and the rows the event leaves. */
module WebhookDispatch {
  import opened Results
  import opened EndpointIds
  import DT = DeliveryTable

  /** What the configuration lookup answered for the instance. */
  datatype Lookup =
    | Configured(enabled: bool, eventsParse: bool, eventEnabled: bool, url: Option<string>)
    | NotConfigured
    | LookupFailed

  datatype DispatchError = EventsUnreadable | InvalidUrl | ConfigurationUnavailable | SigningSecretRequired

  datatype Target = Target(id: string, url: string)

  predicate InstanceSelected(lookup: Lookup) {
    lookup.Configured? && lookup.enabled && lookup.eventsParse && lookup.eventEnabled && lookup.url.Some?
  }

  predicate Targets(endpoints: seq<Target>, e: Endpoint) {
    exists t | t in endpoints :: ParseDeliveryEndpointId(t.id) == Some(e)
  }

  /** A configuration problem is reported, and does not keep the global endpoint from being used. */
  method SelectEndpoints(instanceId: int, lookup: Lookup, globalEnabled: bool, globalUrl: string, signing: bool)
    returns (endpoints: seq<Target>, errors: seq<DispatchError>, send: bool)
    requires 0 < instanceId <= INT64_MAX
    ensures forall i, j | 0 <= i < j < |endpoints| :: endpoints[i].id != endpoints[j].id
    ensures forall t | t in endpoints ::
            ParseDeliveryEndpointId(t.id).Some? && ParseDeliveryEndpointId(t.id).value.instanceId == instanceId
    ensures Targets(endpoints, Endpoint("instance", instanceId)) <==>
              lookup.Configured? && lookup.enabled && lookup.eventsParse && lookup.eventEnabled && lookup.url.Some?
    ensures Targets(endpoints, Endpoint("global", instanceId)) <==> globalEnabled
    ensures forall t | t in endpoints ::
              t.id == DeliveryEndpointId(TARGET_INSTANCE, instanceId)
                  || t.id == DeliveryEndpointId(TARGET_GLOBAL, instanceId)
    ensures forall t | t in endpoints ::
              if ParseDeliveryEndpointId(t.id) == Some(Endpoint("global", instanceId)) then t.url == globalUrl
              else lookup.Configured? && lookup.url == Some(t.url)
    ensures send <==> endpoints != [] && signing
    ensures SigningSecretRequired in errors <==> endpoints != [] && !signing
    ensures ConfigurationUnavailable in errors <==> lookup.LookupFailed?
    ensures EventsUnreadable in errors <==> lookup.Configured? && lookup.enabled && !lookup.eventsParse
    ensures InvalidUrl in errors <==>
              lookup.Configured? && lookup.enabled && lookup.eventsParse && lookup.eventEnabled && lookup.url.None?
    ensures |errors| <= 2
  {
    endpoints, errors := [], [];
    var instanceEndpoint, globalEndpoint := Endpoint(TARGET_INSTANCE, instanceId), Endpoint(TARGET_GLOBAL, instanceId);
    ParseInvertsEndpointId(instanceEndpoint);
    ParseInvertsEndpointId(globalEndpoint);
    if lookup.Configured? && lookup.enabled {
      if !lookup.eventsParse {
        errors := errors + [EventsUnreadable];
      } else if lookup.eventEnabled {
        if lookup.url.None? {
          errors := errors + [InvalidUrl];
        } else {
          endpoints := [Target(DeliveryEndpointId(TARGET_INSTANCE, instanceId), lookup.url.value)];
        }
      }
    } else if lookup.LookupFailed? {
      errors := errors + [ConfigurationUnavailable];
    }
    ghost var selected := endpoints;
    assert selected != [] ==> InstanceSelected(lookup) && selected[0] in selected;
    if globalEnabled {
      endpoints := endpoints + [Target(DeliveryEndpointId(TARGET_GLOBAL, instanceId), globalUrl)];
      assert endpoints[|endpoints| - 1] in endpoints;
      assert InstanceSelected(lookup) ==> endpoints[0] in endpoints;
    }
    if endpoints == [] {
      return endpoints, errors, false;
    }
    if !signing {
      errors := errors + [SigningSecretRequired];
      return endpoints, errors, false;
    }
    send := true;
  }

  /** The deliveries of one event, one for each selected endpoint. */
  predicate EventDeliveries(items: seq<DT.NewDelivery>, eventId: string, endpoints: seq<Endpoint>) {
    && |items| == |endpoints|
    && (forall k | 0 <= k < |items| :: IsEndpoint(endpoints[k]) && items[k].eventId == eventId
          && items[k].endpointId == DeliveryEndpointId(endpoints[k].target, endpoints[k].instanceId))
    && (forall j, k | 0 <= j < k < |items| :: endpoints[j] != endpoints[k])
  }

  /**
   One event leaves exactly one row for each of its endpoints, and different
   rows for different endpoints, however often and in whatever order its
   deliveries are created, with any other statements in
   between except those that remove rows.
   */
  lemma EventHasOneRowPerEndpoint(rows: DT.Rows, run: seq<DT.Statement>, tenant: string, eventId: string,
                                  items: seq<DT.NewDelivery>, endpoints: seq<Endpoint>)
    requires DT.UniqueKeys(rows) && EventDeliveries(items, eventId, endpoints)
    requires forall k | 0 <= k < |items| ::
            items[k].id !in rows && DT.Insert(tenant, items[k]) in run && DT.OwnsId(run, tenant, items[k])
    requires forall s | s in run :: !DT.Deletes(s)
    ensures forall k | 0 <= k < |items| :: |DT.RowsOf(DT.ExecAll(rows, run), tenant, eventId, items[k].endpointId)| == 1
    ensures forall j, k | 0 <= j < k < |items| ::
              DT.RowsOf(DT.ExecAll(rows, run), tenant, eventId, items[j].endpointId)
              !! DT.RowsOf(DT.ExecAll(rows, run), tenant, eventId, items[k].endpointId)
  {
    forall k | 0 <= k < |items|
      ensures |DT.RowsOf(DT.ExecAll(rows, run), tenant, eventId, items[k].endpointId)| == 1
    {
      DT.CreateStoresOneRow(rows, run, tenant, items[k]);
    }
    forall j, k | 0 <= j < k < |items|
      ensures items[j].endpointId != items[k].endpointId
    {
      if items[j].endpointId == items[k].endpointId {
        EndpointIdsAreDistinct(endpoints[j], endpoints[k]);
      }
    }
  }
}
