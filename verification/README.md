# Push-notification registration engine: a verified model

This project models the client-side registration engine of the Pusher
Android push-notification library (`PusherPushNotificationRegistration`):

- the **outbox**, an ordered list of `(interest, SUBSCRIBE|UNSUBSCRIBE)`
  items. `subscribe` appends to it. `unsubscribe` removes every queued
  item for an interest;
- the **flush step** `tryFlushOutbox`. It acts only when the engine is
  activated, the outbox is non-empty and a client id is known. It then
  removes the head and sends one subscription-change request for it;
- the **token-delivery bootstrap**. It sends "create client" when no id
  is known and "update token" otherwise;
- the **lazy client-id cache** in front of shared preferences;
- the **response callbacks**, one method per response;
- the pure **URL and body builders**.

Files:

- `wrappers.dfy`: `Option`, used where the Java code has a nullable
  `String`.
- `outbox.dfy`: the item types and `Without`, the filter `unsubscribe`
  applies. It also holds `RemoveInterest`, the iterator walk that
  implements that filter, and a `Subsequence` order. With that order the
  model states that dispatch follows submission order.
- `api.dfy`: `buildURL`, `createRegistrationJSON` and the three request
  kinds, plus inverse functions (`PathOf`, `InterestOf`) that read the
  path and the interest back from a URL. Each request records the
  response listener it is created with (`OnCreate`, `OnUpdate`,
  `OnModify`), which decides the callback that runs on its response.
- `registration.dfy`: the engine as a class. Its fields are the Java
  fields. Three ghost logs record what was submitted, what was
  dispatched, and the endpoint settings (scheme, host, app key) of each
  dispatch. `Valid()` is the invariant every method keeps. The
  transport is the `issued` field; sending a request appends to it.
  `Valid()` ties the two together: the subscription-change requests in
  `issued`, in order, are exactly the requests for the dispatched items.
- `scenarios.dfy`: client methods. They drive the engine through
  end-to-end scenarios and through interleavings the engine does not
  prevent.

Behaviour of the code worth knowing:

- The code does not serialise dispatch: a `subscribe` while a request is
  outstanding sends the next head at once (`TwoChangesInFlight`).
- Nothing prevents two overlapping bootstraps: two token deliveries
  before the first create succeeds send two create-client requests
  (`TwoBootstraps`). If both succeed with different ids, storage keeps
  the second id. Which id is cached depends on the outbox at the first
  success. When it is non-empty, that success's flush reads and caches
  the first id, and the cache is never refilled, so later changes go out
  under the first id (`TwoCreateSuccessesWithQueuedItem`). When it is
  empty, the flush stops before reading the id, and the next flush caches
  the second id (`TwoCreateSuccessesWithEmptyOutbox`).
- Nothing in the code ever enqueues an UNSUBSCRIBE item. `Valid()`
  therefore proves that no DELETE request is ever sent, although
  `modifySubscription` has a DELETE branch.

## Model

| member | source | states |
|---|---|---|
| `Outbox.Without` | Library/src/main/java/com/pusher/android/PusherPushNotificationRegistration.java:73-83 | filtering never lengthens the outbox |
| `Outbox.WithoutMembers` | Library/src/main/java/com/pusher/android/PusherPushNotificationRegistration.java:76-81 | an item is kept exactly when it was queued and its interest differs from the unsubscribed one, whatever its direction |
| `Outbox.RemoveInterest` | Library/src/main/java/com/pusher/android/PusherPushNotificationRegistration.java:76-81 | the iterator walk that removes matching items in place leaves exactly `Without(outbox, interest)` |
| `Outbox.WithoutAppend` | Library/src/main/java/com/pusher/android/PusherPushNotificationRegistration.java:76-81 | removal decides item by item and distributes over concatenation, so no item moves past another |
| `Outbox.WithoutSubsequence` | Library/src/main/java/com/pusher/android/PusherPushNotificationRegistration.java:73-83 | unsubscribe keeps the relative order of all remaining items |
| `Outbox.WithoutIdempotent` | Library/src/main/java/com/pusher/android/PusherPushNotificationRegistration.java:73-83 | unsubscribing twice from the same interest removes nothing more |
| `Outbox.WithoutCommutes` | Library/src/main/java/com/pusher/android/PusherPushNotificationRegistration.java:73-83 | two unsubscribes give the same outbox in either order |
| `Outbox.UnsubscribeCancelsSubscribe` | Library/src/main/java/com/pusher/android/PusherPushNotificationRegistration.java:67-83 | a subscribe followed by an unsubscribe of the same interest, before any flush, leaves no item for that interest and the others as before |
| `Api.BuildUrlShape` | Library/src/main/java/com/pusher/android/PusherPushNotificationRegistration.java:128-131 | the URL starts with `https://` exactly when encrypted and with `http://` otherwise, ends with the path, and has length scheme + host + `/client_api/v1` + path |
| `Api.PathOf` | Library/src/main/java/com/pusher/android/PusherPushNotificationRegistration.java:128-131 | a path read back from a URL rebuilds that URL |
| `Api.PathOfBuildUrl` | Library/src/main/java/com/pusher/android/PusherPushNotificationRegistration.java:128-131 | the path can be recovered from every built URL, so `buildURL` is injective in the path |
| `Api.InterestOf` | Library/src/main/java/com/pusher/android/PusherPushNotificationRegistration.java:134 | an interest read back from a path rebuilds `/clients/<id>/interests/<interest>` |
| `Api.InterestOfInterestPath` | Library/src/main/java/com/pusher/android/PusherPushNotificationRegistration.java:134 | the interest can be recovered from every interest path built for an id |
| `Api.RegistrationBody` | Library/src/main/java/com/pusher/android/PusherPushNotificationRegistration.java:228-233 | the registration body has exactly the keys `platform_type` (= `gcm`) and `token` (= the token) |
| `Api.CreateClientRequest` | Library/src/main/java/com/pusher/android/PusherPushNotificationRegistration.java:174-176 | the create-client request is a POST with the registration body and is not a subscription change |
| `Api.CreateClientTarget` | Library/src/main/java/com/pusher/android/PusherPushNotificationRegistration.java:174 | the create-client request goes to path `/clients` |
| `Api.UpdateTokenRequest` | Library/src/main/java/com/pusher/android/PusherPushNotificationRegistration.java:206-211 | the update-token request is a PUT with the registration body and is not a subscription change |
| `Api.UpdateTokenTarget` | Library/src/main/java/com/pusher/android/PusherPushNotificationRegistration.java:206 | the update-token request goes to path `/clients/<id>/token` |
| `Api.SubscriptionRequest` | Library/src/main/java/com/pusher/android/PusherPushNotificationRegistration.java:133-148 | POST exactly for SUBSCRIBE and DELETE exactly for UNSUBSCRIBE; body `{app_key}`; it is a subscription change |
| `Api.SubscriptionRequestTarget` | Library/src/main/java/com/pusher/android/PusherPushNotificationRegistration.java:134 | the item's interest under the given id can be read back from the URL of its subscription change |
| `Registration.PushNotificationRegistration.constructor` | Library/src/main/java/com/pusher/android/PusherPushNotificationRegistration.java:38-54 | a new engine is not activated, is encrypted with the default host, has no cached id and an empty outbox, and has sent nothing |
| `Registration.PushNotificationRegistration.Register` | Library/src/main/java/com/pusher/android/PusherPushNotificationRegistration.java:56-65 | registering activates the engine |
| `Registration.PushNotificationRegistration.SetEncrypted` | Library/src/main/java/com/pusher/android/PusherPushNotificationRegistration.java:235-237 | sets only the scheme flag |
| `Registration.PushNotificationRegistration.SetHost` | Library/src/main/java/com/pusher/android/PusherPushNotificationRegistration.java:239-241 | sets only the host |
| `Registration.PushNotificationRegistration.SetApiKey` | Library/src/main/java/com/pusher/android/PusherPushNotificationRegistration.java:89-91 | sets only the application key |
| `Registration.PushNotificationRegistration.GetClientId` | Library/src/main/java/com/pusher/android/PusherPushNotificationRegistration.java:121-126 | returns the cached id when there is one, without consulting storage; otherwise reads the stored id and caches it; a cached id never changes |
| `Registration.PushNotificationRegistration.ModifySubscription` | Library/src/main/java/com/pusher/android/PusherPushNotificationRegistration.java:133-163 | sends exactly one subscription-change request for the item under the cached id with the current scheme, host and app key, records it as the next dispatch, and keeps the sent changes matching the dispatch log |
| `Registration.PushNotificationRegistration.TryFlush` | Library/src/main/java/com/pusher/android/PusherPushNotificationRegistration.java:108-119 | no-op unless activated, outbox non-empty and an id known; otherwise removes exactly the head, sends exactly one request for it, logs the head as the next dispatch and leaves the tail; keeps the invariant |
| `Registration.PushNotificationRegistration.Subscribe` | Library/src/main/java/com/pusher/android/PusherPushNotificationRegistration.java:67-71 | appends exactly one `(interest, SUBSCRIBE)` item at the tail, then flushes from that outbox |
| `Registration.PushNotificationRegistration.Unsubscribe` | Library/src/main/java/com/pusher/android/PusherPushNotificationRegistration.java:73-83 | flushes from `Without(outbox, interest)`; enqueues nothing and submits nothing |
| `Registration.PushNotificationRegistration.OnReceiveRegistrationToken` | Library/src/main/java/com/pusher/android/PusherPushNotificationRegistration.java:99-106 | sends exactly one request, create-client when no id is known and update-token otherwise, or nothing when not activated; the outbox is untouched |
| `Registration.PushNotificationRegistration.UploadRegistrationToken` | Library/src/main/java/com/pusher/android/PusherPushNotificationRegistration.java:169-195 | sends one create-client request when activated and nothing otherwise |
| `Registration.PushNotificationRegistration.UpdateRegistrationToken` | Library/src/main/java/com/pusher/android/PusherPushNotificationRegistration.java:201-226 | sends one update-token request for the cached id when activated and nothing otherwise |
| `Registration.PushNotificationRegistration.OnCreateSuccess` | Library/src/main/java/com/pusher/android/PusherPushNotificationRegistration.java:179-187 | stores the returned id under `__pusher__client__key__`, then flushes; an id cached earlier is kept |
| `Registration.PushNotificationRegistration.OnUpdateSuccess` | Library/src/main/java/com/pusher/android/PusherPushNotificationRegistration.java:215-218 | flushes the outbox |
| `Registration.PushNotificationRegistration.OnModifySuccess` | Library/src/main/java/com/pusher/android/PusherPushNotificationRegistration.java:152-155 | flushes the outbox again |
| `Registration.PushNotificationRegistration.OnError` | Library/src/main/java/com/pusher/android/PusherPushNotificationRegistration.java:156-160 | changes nothing: the failed item is not re-queued and no flush follows |
| `Registration.DispatchedInSubmissionOrder` | Library/src/main/java/com/pusher/android/PusherPushNotificationRegistration.java:108-119 | items were dispatched in submission order; the subscription changes in the request log are one per dispatched item, the k-th being the request for the k-th dispatched item under the cached id with the settings of its dispatch, so something was sent once anything was dispatched |
| `Registration.SentChangesAreSubscribes` | Library/src/main/java/com/pusher/android/PusherPushNotificationRegistration.java:133-148 | every subscription change in the request log is a POST and was sent once a client id was known: the DELETE branch is never taken |

## Left out

- The Volley request queue and the network. Sending a request appends it to `issued`. Each response is a callback method, and the environment may call any callback at any time. The model does not match responses to the requests they answer.
- The Android `Context`, the `Intent` and the service launch in `register`. `Register` only sets `activated`.
- Shared preferences are a `map<string, string>`. Only the client-id key is read or written.
- JSON parsing. A create-client response without an `id` throws `JSONException` in the source and changes nothing. It is modelled by `OnError`, like the three error listeners.
- Logging.
- The null dereference of `networkResponse` in the three error listeners.
- The null dereference of the activation in `getClientId`. `GetClientId` and `OnReceiveRegistrationToken` require that the engine is activated or an id is cached.
- The Java `apiKey` field starts as null until the library initializer sets it. The constructor takes the key instead.
- Thread safety of the synchronized list and its unsynchronized iterator. Calls are treated as sequential.
- The `getInstance` singleton and the message-listener forwarding (`setMessageReceivedListener`, `onMessageReceived`). They hold no state that the engine's invariants concern.
- The create-client request is built with the `JsonObjectRequest` constructor without a method argument, which sends a POST because the request has a body. This is Volley behaviour, and Volley is not part of this model.
- Null `String` arguments. Strings in the model are never null. In the source, `subscribe(null)` enqueues an item with a null interest; a later `unsubscribe` then throws at the `equals` call on line 78, after removing the matching items before it and without reaching the flush on line 82.
