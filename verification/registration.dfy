/** The registration engine (PusherPushNotificationRegistration): the
    outbox of subscription changes, the flush step that drains it once a
    client id is known, the token-delivery bootstrap that creates or updates
    the client, and the callbacks that the transport runs on each response.

    The transport is the `issued` log: sending a request appends it. Each
    response is a separate method the environment may call. Shared
    preferences are the `prefs` map. The Android context is the `activated`
    flag. */
module Registration {
  import opened Wrappers
  import opened Outbox
  import opened Api

  /** The shared-preferences key under which the client id is stored. */
  const ClientIdKey := "__pusher__client__key__"

  function Lookup(prefs: map<string, string>, key: string): Option<string>
  {
    if key in prefs then Some(prefs[key]) else None
  }

  /** The endpoint settings one subscription change was sent with. */
  datatype Endpoint = Endpoint(encrypted: bool, host: string, apiKey: string)

  /** The subscription-change requests among `rs`, in the order sent. */
  function SubscriptionChanges(rs: seq<Request>): (changes: seq<Request>)
    ensures |changes| <= |rs|
  {
    if rs == [] then []
    else (if IsSubscriptionChange(rs[0]) then [rs[0]] else []) + SubscriptionChanges(rs[1..])
  }

  /** The filter keeps exactly the subscription changes. */
  lemma {:induction false} SubscriptionChangesMembers(rs: seq<Request>)
    ensures forall r :: r in SubscriptionChanges(rs) <==> r in rs && IsSubscriptionChange(r)
  {
    if rs != [] {
      SubscriptionChangesMembers(rs[1..]);
      assert rs == [rs[0]] + rs[1..];
    }
  }

  /** Sending one more request extends the filtered log by that request
      exactly when it is a subscription change. */
  lemma {:induction false} SubscriptionChangesSnoc(rs: seq<Request>, r: Request)
    ensures SubscriptionChanges(rs + [r]) ==
      SubscriptionChanges(rs) + if IsSubscriptionChange(r) then [r] else []
  {
    if rs != [] {
      assert (rs + [r])[1..] == rs[1..] + [r];
      SubscriptionChangesSnoc(rs[1..], r);
    } else {
      assert [r][1..] == [];
    }
  }

  /** Only subscribe items are ever submitted, so only they wait in the
      outbox; and what was dispatched followed by what still waits is a
      subsequence of what was submitted (dispatch is FIFO and cancellation
      only removes). */
  ghost predicate QueuedInOrder(submitted: seq<OutboxItem>, dispatched: seq<OutboxItem>, outbox: seq<OutboxItem>)
  {
    && (forall it :: it in submitted ==> it.change == Subscribe)
    && (forall it :: it in outbox ==> it.change == Subscribe)
    && Subsequence(dispatched + outbox, submitted)
  }

  /** No request in `issued` is a DELETE. */
  ghost predicate NoDeleteSent(issued: seq<Request>)
  {
    forall r :: r in issued ==> r.verb != Delete
  }

  /** The subscription changes among the requests `issued` are exactly the
      requests for the `dispatched` items, in dispatch order, the k-th with
      the endpoint settings `via[k]`, all under the client id `id`; so none
      was sent before an id was known. */
  ghost predicate SentAsDispatched(issued: seq<Request>, id: Option<string>, dispatched: seq<OutboxItem>, via: seq<Endpoint>)
  {
    && |SubscriptionChanges(issued)| == |dispatched| == |via|
    && (dispatched != [] ==> id.Some?)
    && forall k {:trigger via[k]} :: 0 <= k < |dispatched| ==>
         SubscriptionChanges(issued)[k] ==
           SubscriptionRequest(via[k].encrypted, via[k].host, via[k].apiKey, id.value, dispatched[k])
  }

  class PushNotificationRegistration {
    var activated: bool
    var encrypted: bool
    var host: string
    var apiKey: string
    /** The cached client id; None stands for the Java null. */
    var clientId: Option<string>
    var prefs: map<string, string>
    var outbox: seq<OutboxItem>
    /** Every request handed to the transport, oldest first. */
    var issued: seq<Request>
    /** Every item ever enqueued, and every item ever dispatched, in order. */
    ghost var submitted: seq<OutboxItem>
    ghost var dispatched: seq<OutboxItem>
    /** The endpoint settings each dispatch used, parallel to `dispatched`. */
    ghost var dispatchedVia: seq<Endpoint>

    /** The engine's invariant:
        - it never enqueues an unsubscribe item, so it never sends a DELETE;
        - what was dispatched followed by what still waits is a
          subsequence of what was submitted (FIFO dispatch, cancellation
          only removes);
        - a cached client id has been read from storage;
        - the subscription changes in the request log are exactly the
          requests for the dispatched items, in dispatch order, under the
          cached id. */
    ghost predicate Valid()
      reads this
    {
      && QueuedInOrder(submitted, dispatched, outbox)
      && (clientId.Some? ==> ClientIdKey in prefs)
      && NoDeleteSent(issued)
      && SentAsDispatched(issued, clientId, dispatched, dispatchedVia)
    }

    /** What getClientId would return now. */
    ghost function KnownId(): Option<string>
      reads this
    {
      if clientId.Some? then clientId else Lookup(prefs, ClientIdKey)
    }

    /** The configuration fields are as they were on entry. */
    twostate predicate ConfigUnchanged()
      reads this
    {
      activated == old(activated) && encrypted == old(encrypted) &&
      host == old(host) && apiKey == old(apiKey)
    }

    /** The state a flush step leaves when it starts from outbox `q`, with
        the cached id, the request log and the dispatch log as they were on
        entry and with the current preferences. It acts only when the engine
        is activated, `q` is non-empty and a client id is known; it then
        removes exactly the head of `q` and sends exactly one request for it. */
    twostate predicate FlushedFrom(q: seq<OutboxItem>)
      reads this
    {
      var id := if old(clientId).Some? then old(clientId) else Lookup(prefs, ClientIdKey);
      if activated && |q| > 0 then
        clientId == id &&
        if id.Some? then
          outbox == q[1..] &&
          issued == old(issued) + [SubscriptionRequest(encrypted, host, apiKey, id.value, q[0])] &&
          dispatched == old(dispatched) + [q[0]] &&
          dispatchedVia == old(dispatchedVia) + [Endpoint(encrypted, host, apiKey)]
        else
          outbox == q && issued == old(issued) && dispatched == old(dispatched) &&
          dispatchedVia == old(dispatchedVia)
      else
        clientId == old(clientId) && outbox == q && issued == old(issued) &&
        dispatched == old(dispatched) && dispatchedVia == old(dispatchedVia)
    }

    /** A fresh engine: not yet activated, default endpoint, nothing queued,
        with whatever the preferences already hold. */
    constructor(apiKey: string, prefs: map<string, string>)
      ensures Valid()
      ensures !activated && encrypted && host == DefaultHost && this.apiKey == apiKey
      ensures clientId == None && this.prefs == prefs
      ensures outbox == [] && issued == [] && submitted == [] && dispatched == [] && dispatchedVia == []
    {
      this.activated := false;
      this.encrypted := true;
      this.host := DefaultHost;
      this.apiKey := apiKey;
      this.clientId := None;
      this.prefs := prefs;
      this.outbox := [];
      this.issued := [];
      this.submitted := [];
      this.dispatched := [];
      this.dispatchedVia := [];
    }

    /** register: only the activation is modelled. */
    method Register()
      requires Valid()
      modifies this`activated
      ensures Valid() && activated
    {
      activated := true;
    }

    method SetEncrypted(encrypted: bool)
      requires Valid()
      modifies this`encrypted
      ensures Valid() && this.encrypted == encrypted
    {
      this.encrypted := encrypted;
    }

    method SetHost(host: string)
      requires Valid()
      modifies this`host
      ensures Valid() && this.host == host
    {
      this.host := host;
    }

    method SetApiKey(apiKey: string)
      requires Valid()
      modifies this`apiKey
      ensures Valid() && this.apiKey == apiKey
    {
      this.apiKey := apiKey;
    }

    /** getClientId: consults storage only while no id is cached, and
        caches what it reads. Without an activation and a cached id the
        source dereferences null, so that is excluded. */
    method GetClientId() returns (id: Option<string>)
      requires Valid()
      requires activated || clientId.Some?
      modifies this`clientId
      ensures Valid()
      ensures id == clientId == old(KnownId())
      ensures old(clientId).Some? ==> clientId == old(clientId)
    {
      if clientId.None? {
        clientId := Lookup(prefs, ClientIdKey);
      }
      id := clientId;
    }

    /** modifySubscription: sends the request for one item under the
        cached id, and records the dispatch in the ghost logs. */
    method ModifySubscription(item: OutboxItem)
      requires clientId.Some? && SentAsDispatched(issued, clientId, dispatched, dispatchedVia)
      modifies this`issued, this`dispatched, this`dispatchedVia
      ensures issued == old(issued) + [SubscriptionRequest(encrypted, host, apiKey, clientId.value, item)]
      ensures dispatched == old(dispatched) + [item]
      ensures dispatchedVia == old(dispatchedVia) + [Endpoint(encrypted, host, apiKey)]
      ensures SentAsDispatched(issued, clientId, dispatched, dispatchedVia)
    {
      var request := SubscriptionRequest(encrypted, host, apiKey, clientId.value, item);
      ghost var e := Endpoint(encrypted, host, apiKey);
      SubscriptionChangesSnoc(issued, request);
      issued := issued + [request];
      dispatched := dispatched + [item];
      dispatchedVia := dispatchedVia + [e];
    }

    /** tryFlushOutbox. The guards are evaluated in the source's order, so
        the id is looked up (and cached) only when the engine is activated
        and the outbox is non-empty. */
    method TryFlush()
      requires Valid()
      modifies this
      ensures Valid() && ConfigUnchanged() && prefs == old(prefs) && submitted == old(submitted)
      ensures FlushedFrom(old(outbox))
    {
      if activated && |outbox| > 0 {
        var id := GetClientId();
        if id.Some? {
          var item := outbox[0];
          assert dispatched + outbox == (dispatched + [item]) + outbox[1..];
          outbox := outbox[1..];
          ModifySubscription(item);
        }
      }
    }

    /** subscribe: appends one subscribe item, then attempts a flush. */
    method Subscribe(interest: string)
      requires Valid()
      modifies this
      ensures Valid() && ConfigUnchanged() && prefs == old(prefs)
      ensures submitted == old(submitted) + [OutboxItem(interest, Change.Subscribe)]
      ensures FlushedFrom(old(outbox) + [OutboxItem(interest, Change.Subscribe)])
    {
      var item := OutboxItem(interest, Change.Subscribe);
      SubsequenceSnoc(dispatched + outbox, submitted, item);
      assert dispatched + outbox + [item] == dispatched + (outbox + [item]);
      outbox := outbox + [item];
      submitted := submitted + [item];
      TryFlush();
    }

    /** unsubscribe: walks the outbox and removes every item for
        `interest`, whatever its direction, then attempts a flush. It never
        enqueues an unsubscribe item. */
    method Unsubscribe(interest: string)
      requires Valid()
      modifies this
      ensures Valid() && ConfigUnchanged() && prefs == old(prefs) && submitted == old(submitted)
      ensures FlushedFrom(Without(old(outbox), interest))
    {
      var items := RemoveInterest(outbox, interest);
      WithoutSubsequence(outbox, interest);
      WithoutMembers(outbox, interest);
      SubsequencePrefix(dispatched, items, outbox);
      SubsequenceTransitive(dispatched + items, dispatched + outbox, submitted);
      outbox := items;
      TryFlush();
    }

    /** onReceiveRegistrationToken: creates the client when no id is
        known, otherwise updates its token. The source dereferences a null
        activation when neither holds, so that is excluded. */
    method OnReceiveRegistrationToken(token: string)
      requires Valid()
      requires activated || clientId.Some?
      modifies this
      ensures Valid() && ConfigUnchanged() && prefs == old(prefs)
      ensures outbox == old(outbox) && submitted == old(submitted)
      ensures dispatched == old(dispatched) && dispatchedVia == old(dispatchedVia)
      ensures clientId == old(KnownId())
      ensures issued == old(issued) +
        if !activated then []
        else if clientId.None? then [CreateClientRequest(encrypted, host, token)]
        else [UpdateTokenRequest(encrypted, host, clientId.value, token)]
    {
      var id := GetClientId();
      if id.None? {
        UploadRegistrationToken(token);
      } else {
        UpdateRegistrationToken(token);
      }
    }

    /** uploadRegistrationToken: asks the service to create a client. */
    method UploadRegistrationToken(token: string)
      requires Valid()
      modifies this`issued
      ensures Valid()
      ensures issued == old(issued) + if activated then [CreateClientRequest(encrypted, host, token)] else []
    {
      if !activated {
        return;
      }
      var request := CreateClientRequest(encrypted, host, token);
      SubscriptionChangesSnoc(issued, request);
      issued := issued + [request];
    }

    /** updateRegistrationToken: re-registers the token under the cached id. */
    method UpdateRegistrationToken(token: string)
      requires Valid()
      requires clientId.Some?
      modifies this`issued
      ensures Valid()
      ensures issued == old(issued) + if activated then [UpdateTokenRequest(encrypted, host, clientId.value, token)] else []
    {
      if !activated {
        return;
      }
      var request := UpdateTokenRequest(encrypted, host, clientId.value, token);
      SubscriptionChangesSnoc(issued, request);
      issued := issued + [request];
    }

    /** Success of a create-client request: the returned id is stored, then
        the outbox is flushed. An id cached earlier is not replaced. */
    method OnCreateSuccess(id: string)
      requires Valid()
      modifies this
      ensures Valid() && ConfigUnchanged() && submitted == old(submitted)
      ensures prefs == old(prefs)[ClientIdKey := id]
      ensures FlushedFrom(old(outbox))
    {
      prefs := prefs[ClientIdKey := id];
      TryFlush();
    }

    /** Success of an update-token request: the outbox is flushed. */
    method OnUpdateSuccess()
      requires Valid()
      modifies this
      ensures Valid() && ConfigUnchanged() && prefs == old(prefs) && submitted == old(submitted)
      ensures FlushedFrom(old(outbox))
    {
      TryFlush();
    }

    /** Success of a subscription change: the outbox is flushed again. */
    method OnModifySuccess()
      requires Valid()
      modifies this
      ensures Valid() && ConfigUnchanged() && prefs == old(prefs) && submitted == old(submitted)
      ensures FlushedFrom(old(outbox))
    {
      TryFlush();
    }

    /** Failure of any request, or a create-client response without an id:
        only logged. A failed subscription change is not re-queued. */
    method OnError()
      requires Valid()
      ensures Valid()
    {
    }
  }

  /** Items are dispatched in the order they were submitted, and the k-th
      subscription change sent is the request for the k-th dispatched item,
      under the cached client id. */
  lemma DispatchedInSubmissionOrder(r: PushNotificationRegistration)
    requires r.Valid()
    ensures Subsequence(r.dispatched, r.submitted)
    ensures |SubscriptionChanges(r.issued)| == |r.dispatched| <= |r.issued|
    ensures forall k :: 0 <= k < |r.dispatched| ==>
      r.clientId.Some? && k < |r.dispatchedVia| &&
      SubscriptionChanges(r.issued)[k] ==
        SubscriptionRequest(r.dispatchedVia[k].encrypted, r.dispatchedVia[k].host, r.dispatchedVia[k].apiKey,
                            r.clientId.value, r.dispatched[k])
  {
    SubsequenceOfPrefix(r.dispatched, r.outbox, r.submitted);
  }

  /** Every subscription change sent so far is a POST, sent once a client
      id was known: the engine never sends an unsubscribe. */
  lemma SentChangesAreSubscribes(r: PushNotificationRegistration)
    requires r.Valid()
    ensures forall req :: req in r.issued && IsSubscriptionChange(req) ==> r.clientId.Some? && req.verb == Post
  {
    SubscriptionChangesMembers(r.issued);
    SubsequenceOfPrefix(r.dispatched, r.outbox, r.submitted);
    SubsequenceMembers(r.dispatched, r.submitted);
    forall req | req in r.issued && IsSubscriptionChange(req)
      ensures r.clientId.Some? && req.verb == Post
    {
      var changes := SubscriptionChanges(r.issued);
      var k :| 0 <= k < |changes| && changes[k] == req;
      var via := r.dispatchedVia[k];
      assert r.dispatched[k] in r.dispatched;
    }
  }
}
