/** Client code that drives the engine through end-to-end scenarios and
    through interleavings that show the engine serialises neither dispatch
    nor bootstrap. Everything asserted here follows from the contracts of the
    engine's methods alone. */
module Scenarios {
  import opened Wrappers
  import opened Outbox
  import opened Api
  import opened Registration

  /** No cached id. A subscribe is held back until the id exists; the token
      delivery creates the client; its success stores the id and sends the
      held subscribe as one POST under that id. */
  method SubscribeBeforeIdentity() {
    var r := new PushNotificationRegistration("key", map[]);
    r.Register();
    r.Subscribe("sports");
    assert r.issued == [] && r.outbox == [OutboxItem("sports", Subscribe)];

    r.OnReceiveRegistrationToken("tok");
    assert r.issued == [CreateClientRequest(true, DefaultHost, "tok")];
    CreateClientTarget(true, DefaultHost, "tok");
    assert PathOf(true, DefaultHost, r.issued[0].url) == Some(ClientsPath);

    r.OnCreateSuccess("abc");
    assert r.prefs[ClientIdKey] == "abc" && r.clientId == Some("abc");
    assert r.outbox == [];
    assert |r.issued| == 2;
    var sent := r.issued[1];
    assert sent == SubscriptionRequest(true, DefaultHost, "key", "abc", OutboxItem("sports", Subscribe));
    assert sent.verb == Post && sent.body == map["app_key" := "key"];
    SubscriptionRequestTarget(true, DefaultHost, "key", "abc", OutboxItem("sports", Subscribe));
    var path := PathOf(true, DefaultHost, sent.url);
    assert path.Some? && InterestOf("abc", path.value) == Some("sports");
  }

  /** An id is already stored: a token delivery sends one PUT to the token
      path of that id and no create-client request. */
  method TokenUpdateWithStoredIdentity() {
    var r := new PushNotificationRegistration("key", map[ClientIdKey := "abc"]);
    r.Register();
    r.OnReceiveRegistrationToken("tok");
    assert r.clientId == Some("abc");
    assert r.issued == [UpdateTokenRequest(true, DefaultHost, "abc", "tok")];
    assert r.issued[0].verb == Put;
    UpdateTokenTarget(true, DefaultHost, "abc", "tok");
    assert PathOf(true, DefaultHost, r.issued[0].url) == Some(TokenPath("abc"));
  }

  /** A subscribe cancelled before any flush leaves the outbox empty, and
      nothing is ever sent for it. */
  method SubscribeThenUnsubscribe() {
    var r := new PushNotificationRegistration("key", map[]);
    r.Register();
    r.Subscribe("sports");
    r.Unsubscribe("sports");
    assert r.outbox == [] && r.issued == [];
    r.OnReceiveRegistrationToken("tok");
    r.OnCreateSuccess("abc");
    assert r.issued == [CreateClientRequest(true, DefaultHost, "tok")];
  }

  /** A failed subscription change is dropped; later subscribes still go
      out. */
  method FailureDropsItem() {
    var r := new PushNotificationRegistration("key", map[ClientIdKey := "abc"]);
    r.Register();
    r.Subscribe("sports");
    assert r.outbox == [] && |r.issued| == 1;
    r.OnError();
    assert r.outbox == [];
    r.Subscribe("news");
    assert |r.issued| == 2;
    assert r.issued[1] == SubscriptionRequest(true, DefaultHost, "key", "abc", OutboxItem("news", Subscribe));
  }

  /** With an id known, a second subscribe sends its request while the
      first is still unanswered: dispatch is not single-flight. */
  method TwoChangesInFlight() {
    var r := new PushNotificationRegistration("key", map[ClientIdKey := "abc"]);
    r.Register();
    r.Subscribe("sports");
    r.Subscribe("news");
    assert |r.issued| == 2 && r.outbox == [];
    assert r.issued[0] == SubscriptionRequest(true, DefaultHost, "key", "abc", OutboxItem("sports", Subscribe));
    assert r.issued[1] == SubscriptionRequest(true, DefaultHost, "key", "abc", OutboxItem("news", Subscribe));
  }

  /** Two token deliveries before the first create succeeds send two
      create-client requests: nothing prevents overlapping bootstraps. */
  method TwoBootstraps() {
    var r := new PushNotificationRegistration("key", map[]);
    r.Register();
    r.Subscribe("sports");
    r.OnReceiveRegistrationToken("tok");
    r.OnReceiveRegistrationToken("tok");
    assert r.issued == [CreateClientRequest(true, DefaultHost, "tok"), CreateClientRequest(true, DefaultHost, "tok")];
  }

  /** Both overlapping create-client requests succeed, with different ids.
      The outbox is non-empty at the first success, so its flush caches the
      first id; the second success only overwrites storage, and later
      changes still go out under the first id. */
  method TwoCreateSuccessesWithQueuedItem() {
    var r := new PushNotificationRegistration("key", map[]);
    r.Register();
    r.Subscribe("sports");
    r.OnCreateSuccess("abc");
    assert r.clientId == Some("abc") && r.outbox == [] && |r.issued| == 1;
    r.OnCreateSuccess("xyz");
    assert r.prefs[ClientIdKey] == "xyz" && r.clientId == Some("abc");
    r.Subscribe("news");
    assert r.issued[1] == SubscriptionRequest(true, DefaultHost, "key", "abc", OutboxItem("news", Subscribe));
  }

  /** The same two successes with an empty outbox at the first one: its
      flush stops before reading the id, nothing is cached, and the next
      flush caches the second id. */
  method TwoCreateSuccessesWithEmptyOutbox() {
    var r := new PushNotificationRegistration("key", map[]);
    r.Register();
    r.OnCreateSuccess("abc");
    assert r.clientId == None;
    r.OnCreateSuccess("xyz");
    r.Subscribe("news");
    assert r.clientId == Some("xyz");
    assert r.issued == [SubscriptionRequest(true, DefaultHost, "key", "xyz", OutboxItem("news", Subscribe))];
  }
}
