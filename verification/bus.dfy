/** The in-process publish/subscribe hub: a registry of subscription items in
    insertion order, with subscribe, unsubscribe and synchronous publish. */
module Bus {
  import opened Common
  import opened Messages
  import opened Subscriptions

  /** The hub's subscriber error handler: the no-op default, one supplied by
      the host, or null when the host passed null to the constructor. */
  datatype ErrorHandler = NoHandler | DefaultHandler | UserHandler(id: nat)

  /** The hub: its registry (a list, kept in insertion order), the next token
      to issue, and the error handler fixed at construction. */
  datatype Hub = Hub(items: seq<Item>, nextToken: Token, errorHandler: ErrorHandler)

  /** A successful subscribe: the new hub and the token handed back. */
  datatype Subscribed = Subscribed(hub: Hub, token: Token)

  /** An argument of a `Subscribe` overload: left out (the overload supplies
      its default) or passed by the caller. */
  datatype Arg<T> = Omitted | Given(value: T)

  /** A token as the subscriber holds it, with its weak reference to the hub
      that issued it. */
  datatype TokenHandle = TokenHandle(token: Token, hubAlive: bool)

  /** What one delivery of a publish did: to which subscription, whether its
      delivery action ran, and the exception passed to the error handler. */
  datatype Receipt = Receipt(token: Token, invoked: bool, error: Option<Exn>)

  /** The result of a publish: the hub afterwards (delivery actions may have
      subscribed or unsubscribed), the receipts in delivery order, and the
      exception that escaped to the publisher, if any. */
  datatype Published = Published(hub: Hub, trace: seq<Receipt>, thrown: Option<Exn>)

  /** Some item of the registry holds token `t`. */
  predicate Holds(items: seq<Item>, t: Token) {
    exists i :: 0 <= i < |items| && items[i].subscription.token == t
  }

  predicate TokensBelow(items: seq<Item>, n: Token) {
    forall i :: 0 <= i < |items| ==> items[i].subscription.token < n
  }

  predicate DistinctTokens(items: seq<Item>) {
    forall i, j :: 0 <= i < j < |items| ==> items[i].subscription.token != items[j].subscription.token
  }

  /** The hub invariant: every item has its own token, and each was issued
      before `nextToken`, so a newly issued token is held by nobody. */
  predicate Valid(h: Hub) {
    TokensBelow(h.items, h.nextToken) && DistinctTokens(h.items)
  }

  /** `new BusHub()`: an empty registry and the no-op error handler. */
  function NewHub(): (h: Hub)
    ensures Valid(h) && h.items == [] && h.errorHandler == DefaultHandler
  {
    Hub([], 0, DefaultHandler)
  }

  /** `new BusHub(handler)`: the handler is stored as given, null included. */
  function NewHubWith(handler: Option<nat>): (h: Hub)
    ensures Valid(h) && h.items == []
    ensures handler.None? ==> h.errorHandler == NoHandler
    ensures handler.Some? ==> h.errorHandler == UserHandler(handler.value)
  {
    match handler
    case None => Hub([], 0, NoHandler)
    case Some(id) => Hub([], 0, UserHandler(id))
  }

  /** Appends one item with a freshly issued token.  The arguments have
      already been checked. */
  function Register(h: Hub, messageType: TypeTag, action: nat, filter: Filter, mode: Mode, proxy: Proxy): (r: Subscribed)
    ensures |r.hub.items| == |h.items| + 1 && r.hub.items[..|h.items|] == h.items
    ensures r.hub.items[|h.items|] == Item(proxy, Subscription(r.token, messageType, action, filter, mode, true, true))
    ensures r.hub.errorHandler == h.errorHandler
    ensures r.token == h.nextToken && r.hub.nextToken == h.nextToken + 1
    ensures Valid(h) ==> Valid(r.hub) && !Holds(h.items, r.token)
  {
    var t := h.nextToken;
    var item := Item(proxy, Subscription(t, messageType, action, filter, mode, true, true));
    assert (h.items + [item])[..|h.items|] == h.items;
    Subscribed(Hub(h.items + [item], t + 1, h.errorHandler), t)
  }

  /** `AddSubscriptionInternal`: null checks on the action, the filter and the
      proxy, in that order, before anything is added; then one new item, strong
      or weak as asked. */
  function AddSubscription(h: Hub, messageType: TypeTag, action: Option<nat>, filter: Option<Filter>,
                           strong: bool, proxy: Option<Proxy>): (r: Result<Subscribed>)
    ensures r.Err? <==> action.None? || filter.None? || proxy.None?
    ensures action.None? ==> r == Err(ArgumentNull("deliveryAction"))
    ensures action.Some? && filter.None? ==> r == Err(ArgumentNull("messageFilter"))
    ensures action.Some? && filter.Some? && proxy.None? ==> r == Err(ArgumentNull("proxy"))
    ensures r.Ok? ==> |r.value.hub.items| == |h.items| + 1 && r.value.hub.items[..|h.items|] == h.items
    ensures r.Ok? ==> (r.value.hub.items[|h.items|] ==
      Item(proxy.value, Subscription(r.value.token, messageType, action.value, filter.value,
                                     if strong then Strong else Weak, true, true)))
    ensures r.Ok? ==> r.value.hub.errorHandler == h.errorHandler
    ensures r.Ok? ==> r.value.token == h.nextToken && r.value.hub.nextToken == h.nextToken + 1
    ensures r.Ok? && Valid(h) ==> Valid(r.value.hub) && !Holds(h.items, r.value.token)
  {
    if action.None? then Err(ArgumentNull("deliveryAction"))
    else if filter.None? then Err(ArgumentNull("messageFilter"))
    else if proxy.None? then Err(ArgumentNull("proxy"))
    else Ok(Register(h, messageType, action.value, filter.value, if strong then Strong else Weak, proxy.value))
  }

  /** The eight public `Subscribe` overloads in one: an omitted filter becomes
      `(m) => true`, an omitted reference flag becomes strong, and an omitted
      proxy becomes the default proxy. */
  function Subscribe(h: Hub, messageType: TypeTag, action: Option<nat>, filter: Arg<Option<Filter>>,
                     strong: Arg<bool>, proxy: Arg<Option<Proxy>>): (r: Result<Subscribed>)
    ensures r.Err? <==> action.None? || filter == Given(None) || proxy == Given(None)
    ensures action.None? ==> r == Err(ArgumentNull("deliveryAction"))
    ensures action.Some? && filter == Given(None) ==> r == Err(ArgumentNull("messageFilter"))
    ensures action.Some? && filter != Given(None) && proxy == Given(None) ==> r == Err(ArgumentNull("proxy"))
    ensures r.Ok? ==> (|r.value.hub.items| == |h.items| + 1
      && r.value.hub.items[|h.items|].subscription.messageType == messageType
      && r.value.hub.items[|h.items|].subscription.action == action.value)
    ensures r.Ok? ==> (|r.value.hub.items| == |h.items| + 1
      && r.value.hub.items[|h.items|].subscription.actionAlive
      && r.value.hub.items[|h.items|].subscription.filterAlive)
    ensures r.Ok? ==> |r.value.hub.items| == |h.items| + 1 && r.value.hub.items[..|h.items|] == h.items
    ensures r.Ok? ==> r.value.hub.items[|h.items|].subscription.token == r.value.token
    ensures r.Ok? && filter.Omitted? ==> r.value.hub.items[|h.items|].subscription.filter == AcceptAll
    ensures r.Ok? && filter.Given? ==> r.value.hub.items[|h.items|].subscription.filter == filter.value.value
    ensures r.Ok? && strong.Omitted? ==> r.value.hub.items[|h.items|].subscription.mode == Strong
    ensures r.Ok? && strong.Given? ==>
      (r.value.hub.items[|h.items|].subscription.mode == Strong <==> strong.value)
    ensures r.Ok? && proxy.Omitted? ==> r.value.hub.items[|h.items|].proxy == DefaultProxy
    ensures r.Ok? && proxy.Given? ==> r.value.hub.items[|h.items|].proxy == proxy.value.value
    ensures r.Ok? ==> r.value.hub.errorHandler == h.errorHandler
    ensures r.Ok? ==> r.value.token == h.nextToken && r.value.hub.nextToken == h.nextToken + 1
    ensures r.Ok? && Valid(h) ==> Valid(r.value.hub) && !Holds(h.items, r.value.token)
  {
    var f := match filter case Omitted => Some(AcceptAll) case Given(v) => v;
    var s := match strong case Omitted => true case Given(v) => v;
    var p := match proxy case Omitted => Some(DefaultProxy) case Given(v) => v;
    AddSubscription(h, messageType, action, f, s, p)
  }

  /** The registry without the items holding token `t`, the rest in their
      original order. */
  function RemoveToken(items: seq<Item>, t: Token): (r: seq<Item>)
    ensures forall x :: x in r <==> x in items && x.subscription.token != t
    ensures !Holds(r, t)
    ensures |r| <= |items|
    ensures !Holds(items, t) ==> r == items
    ensures DistinctTokens(items) ==> DistinctTokens(r)
  {
    if items == [] then []
    else
      var rest := RemoveToken(items[1..], t);
      HoldsTail(items, t);
      if items[0].subscription.token == t then rest
      else
        DistinctHead(items, rest);
        HoldsTail([items[0]] + rest, t);
        assert ([items[0]] + rest)[1..] == rest;
        [items[0]] + rest
  }

  lemma HoldsTail(items: seq<Item>, t: Token)
    requires items != []
    ensures Holds(items, t) <==> items[0].subscription.token == t || Holds(items[1..], t)
  {
    if Holds(items[1..], t) {
      var i :| 0 <= i < |items[1..]| && items[1..][i].subscription.token == t;
      assert items[i + 1].subscription.token == t;
    }
    if Holds(items, t) && items[0].subscription.token != t {
      var i :| 0 <= i < |items| && items[i].subscription.token == t;
      assert items[1..][i - 1].subscription.token == t;
    }
  }

  /** Putting back the head in front of a distinct sub-list of the tail keeps
      the tokens distinct. */
  lemma DistinctHead(items: seq<Item>, rest: seq<Item>)
    requires items != []
    requires DistinctTokens(items[1..]) ==> DistinctTokens(rest)
    requires forall x :: x in rest ==> x in items[1..]
    ensures DistinctTokens(items) ==> DistinctTokens([items[0]] + rest)
  {
    if DistinctTokens(items) {
      assert DistinctTokens(items[1..]) by {
        forall i, j | 0 <= i < j < |items[1..]|
          ensures items[1..][i].subscription.token != items[1..][j].subscription.token
        {
          assert items[1..][i] == items[i + 1] && items[1..][j] == items[j + 1];
        }
      }
      forall x | x in rest ensures x.subscription.token != items[0].subscription.token {
        var j :| 0 <= j < |items[1..]| && items[1..][j] == x;
        assert items[j + 1] == x;
      }
      var r := [items[0]] + rest;
      forall i, j | 0 <= i < j < |r| ensures r[i].subscription.token != r[j].subscription.token {
        if i == 0 {
          assert r[j] in rest;
        } else {
          assert r[i] == rest[i - 1] && r[j] == rest[j - 1];
        }
      }
    }
  }

  /** Removing token `t` from the hub; the token counter and the error handler
      are untouched. */
  function RemoveSubscription(h: Hub, t: Token): (r: Hub)
    ensures r.nextToken == h.nextToken && r.errorHandler == h.errorHandler
    ensures !Holds(r.items, t)
    ensures forall x :: x in r.items <==> x in h.items && x.subscription.token != t
    ensures !Holds(h.items, t) ==> r == h
    ensures Valid(h) ==> Valid(r)
  {
    var r := h.(items := RemoveToken(h.items, t));
    assert Valid(h) ==> TokensBelow(r.items, h.nextToken) by {
      if Valid(h) {
        forall i | 0 <= i < |r.items| ensures r.items[i].subscription.token < h.nextToken {
          assert r.items[i] in h.items;
        }
      }
    }
    r
  }

  /** `Unsubscribe`: a null token is an argument error; otherwise every item
      holding the token goes, and an unknown token changes nothing. */
  function Unsubscribe(h: Hub, token: Option<Token>): (r: Result<Hub>)
    ensures token.None? <==> r.Err?
    ensures token.None? ==> r == Err(ArgumentNull("subscriptionToken"))
    ensures r.Ok? ==> !Holds(r.value.items, token.value)
    ensures r.Ok? ==> forall x :: x in r.value.items <==> x in h.items && x.subscription.token != token.value
    ensures r.Ok? && !Holds(h.items, token.value) ==> r.value == h
    ensures r.Ok? ==> r.value.errorHandler == h.errorHandler && r.value.nextToken == h.nextToken
    ensures r.Ok? && Valid(h) ==> Valid(r.value)
  {
    match token
    case None => Err(ArgumentNull("subscriptionToken"))
    case Some(t) => Ok(RemoveSubscription(h, t))
  }

  /** `BusSubscriptionToken.Dispose`: unsubscribes through the weak reference
      to the hub when the hub is still alive, and does nothing otherwise. */
  function DisposeToken(h: Hub, handle: TokenHandle): (r: Hub)
    ensures handle.hubAlive ==> !Holds(r.items, handle.token)
    ensures handle.hubAlive ==> forall x :: x in r.items <==> x in h.items && x.subscription.token != handle.token
    ensures handle.hubAlive ==> r == Unsubscribe(h, Some(handle.token)).value
    ensures r.errorHandler == h.errorHandler && r.nextToken == h.nextToken
    ensures !handle.hubAlive ==> r == h
    ensures Valid(h) ==> Valid(r)
  {
    if handle.hubAlive then RemoveSubscription(h, handle.token) else h
  }

  /** The garbage collector reclaims the delivery action and/or the filter of
      the subscription holding token `t`; only weak subscriptions notice. */
  function CollectTargets(h: Hub, t: Token, action: bool, filter: bool): (r: Hub)
    ensures |r.items| == |h.items| && r.nextToken == h.nextToken && r.errorHandler == h.errorHandler
    ensures forall k :: 0 <= k < |h.items| ==> r.items[k].proxy == h.items[k].proxy
    ensures forall k :: 0 <= k < |h.items| ==> (r.items[k].subscription ==
      if h.items[k].subscription.token == t then ReleaseTargets(h.items[k].subscription, action, filter)
      else h.items[k].subscription)
    ensures Valid(h) ==> Valid(r)
  {
    var items := seq(|h.items|, k requires 0 <= k < |h.items| =>
      var it := h.items[k];
      if it.subscription.token == t then it.(subscription := ReleaseTargets(it.subscription, action, filter)) else it);
    h.(items := items)
  }

  /** A registry change made by a delivery action through the hub. */
  function ApplyEdit(h: Hub, e: Edit): (r: Hub)
    ensures e.Add? ==> r == Register(h, e.messageType, e.action, e.filter, e.mode, e.proxy).hub
    ensures e.Add? ==> (|r.items| == |h.items| + 1 && r.items[..|h.items|] == h.items
      && r.items[|h.items|].proxy == e.proxy && r.items[|h.items|].subscription.messageType == e.messageType)
    ensures e.Remove? ==> r == RemoveSubscription(h, e.token)
    ensures e.Remove? ==> !Holds(r.items, e.token)
    ensures e.Remove? ==> forall x :: x in r.items <==> x in h.items && x.subscription.token != e.token
    ensures r.errorHandler == h.errorHandler
    ensures Valid(h) ==> Valid(r)
  {
    match e
    case Add(mt, action, filter, mode, proxy) => Register(h, mt, action, filter, mode, proxy).hub
    case Remove(t) => RemoveSubscription(h, t)
  }

  /** The registry changes a delivery action makes, applied in the order it
      makes them. */
  function ApplyEdits(h: Hub, es: seq<Edit>): (r: Hub)
    decreases |es|
    ensures es == [] ==> r == h
    ensures |es| > 0 ==> r == ApplyEdits(ApplyEdit(h, es[0]), es[1..])
    ensures r.errorHandler == h.errorHandler
    ensures Valid(h) ==> Valid(r)
  {
    if es == [] then h else ApplyEdits(ApplyEdit(h, es[0]), es[1..])
  }

  /** Applying two runs of changes one after the other is applying their
      concatenation. */
  lemma {:induction false} ApplyEditsAppend(h: Hub, a: seq<Edit>, b: seq<Edit>)
    decreases |a|
    ensures ApplyEdits(h, a + b) == ApplyEdits(ApplyEdits(h, a), b)
  {
    if a == [] {
      assert a + b == b;
    } else {
      assert (a + b)[0] == a[0] && (a + b)[1..] == a[1..] + b;
      ApplyEditsAppend(ApplyEdit(h, a[0]), a[1..], b);
    }
  }

  /** The registry changes that delivering to `items` makes, in delivery
      order. */
  function EditsOf(env: Env, items: seq<Item>, m: Message): seq<Edit> {
    if items == [] then [] else ProxyDeliver(env, items[0], m).edits + EditsOf(env, items[1..], m)
  }

  /** The items `ShouldAttemptDelivery` accepts, in registry order; a filter
      that throws ends the snapshot with its exception. */
  function Snapshot(env: Env, items: seq<Item>, m: Message): (r: Result<seq<Item>>)
    ensures r.Ok? ==> |r.value| <= |items|
    ensures r.Ok? ==> forall k :: 0 <= k < |r.value| ==>
      r.value[k] in items && ShouldAttemptDelivery(env, r.value[k].subscription, Some(m)) == Attempt
    ensures r.Ok? ==> forall x :: x in items && ShouldAttemptDelivery(env, x.subscription, Some(m)) == Attempt ==> x in r.value
    ensures r.Ok? <==> forall i :: 0 <= i < |items| ==> !ShouldAttemptDelivery(env, items[i].subscription, Some(m)).Fault?
    ensures r.Err? ==> exists i :: (0 <= i < |items|
      && ShouldAttemptDelivery(env, items[i].subscription, Some(m)) == Fault(r.error)
      && forall j :: 0 <= j < i ==> !ShouldAttemptDelivery(env, items[j].subscription, Some(m)).Fault?)
  {
    if items == [] then Ok([])
    else
      var v := ShouldAttemptDelivery(env, items[0].subscription, Some(m));
      var rest := Snapshot(env, items[1..], m);
      assert forall i :: 1 <= i < |items| ==> items[i] == items[1..][i - 1];
      match v
      case Fault(e) => Err(e)
      case Skip => rest
      case Attempt =>
        if rest.Err? then rest else Ok([items[0]] + rest.value)
  }

  /** The receipt a delivery leaves. */
  function ReceiptOf(item: Item, d: Delivery): Receipt {
    Receipt(item.subscription.token, d.invoked, d.error)
  }

  /** `ISubscriberErrorHandler.Handle`: the exception it lets escape.  A null
      handler fails with a null reference; the default one swallows. */
  function HandleError(env: Env, handler: ErrorHandler, m: Message, e: Exn): (r: Option<Exn>)
    ensures handler == DefaultHandler ==> r.None?
    ensures handler == NoHandler ==> r == Some(NullReference)
    ensures handler.UserHandler? ==> (r.None? <==> env.errorHandlers(handler.id, m, e).None?)
    ensures handler.UserHandler? && env.errorHandlers(handler.id, m, e).Some? ==>
      r == Some(Raised(env.errorHandlers(handler.id, m, e).value))
  {
    match handler
    case NoHandler => Some(NullReference)
    case DefaultHandler => None
    case UserHandler(id) =>
      match env.errorHandlers(id, m, e)
      case None => None
      case Some(x) => Some(Raised(x))
  }

  /** The changes of the first `n + 1` deliveries: those of the first, then
      those of the next `n`. */
  lemma EditsOfPrefix(env: Env, pending: seq<Item>, m: Message, n: nat)
    requires n < |pending|
    ensures EditsOf(env, pending[..n + 1], m) == ProxyDeliver(env, pending[0], m).edits + EditsOf(env, pending[1..][..n], m)
    ensures EditsOf(env, pending[1..][..0], m) == []
  {
    assert pending[..n + 1][0] == pending[0] && pending[..n + 1][1..] == pending[1..][..n];
  }

  /** The registry after delivering to the first `n + 1` pending items is
      the registry after the first delivery, with the next `n` deliveries'
      changes applied to it. */
  lemma DeliveredEdits(env: Env, h: Hub, m: Message, pending: seq<Item>, n: nat)
    requires n < |pending|
    ensures ApplyEdits(h, EditsOf(env, pending[..n + 1], m))
      == ApplyEdits(ApplyEdits(h, ProxyDeliver(env, pending[0], m).edits), EditsOf(env, pending[1..][..n], m))
    ensures ApplyEdits(h, EditsOf(env, pending[..1], m)) == ApplyEdits(h, ProxyDeliver(env, pending[0], m).edits)
  {
    var d := ProxyDeliver(env, pending[0], m);
    EditsOfPrefix(env, pending, m, n);
    ApplyEditsAppend(h, d.edits, EditsOf(env, pending[1..][..n], m));
    EditsOfPrefix(env, pending, m, 0);
    assert d.edits + [] == d.edits;
  }

  /** How the error handler shaped a publish: every failed delivery before
      the last receipt was swallowed; an exception escaped exactly when the
      handler let the last receipt's exception through, and it is what the
      handler raised. */
  predicate HandledInTurn(env: Env, handler: ErrorHandler, m: Message, trace: seq<Receipt>, thrown: Option<Exn>) {
    && (forall k :: 0 <= k < |trace| - 1 ==>
          trace[k].error.None? || HandleError(env, handler, m, trace[k].error.value).None?)
    && (thrown.Some? ==> (|trace| > 0 && trace[|trace| - 1].error.Some?
          && thrown == HandleError(env, handler, m, trace[|trace| - 1].error.value)))
    && (thrown.None? && |trace| > 0 ==>
          (trace[|trace| - 1].error.None? || HandleError(env, handler, m, trace[|trace| - 1].error.value).None?))
  }

  /** One more delivery in front of a trace that matches the rest of the
      snapshot gives a trace that matches the whole snapshot. */
  lemma {:induction false} TraceCons(env: Env, m: Message, pending: seq<Item>, rest: seq<Receipt>)
    requires 0 < |pending| && |rest| < |pending|
    requires forall k :: 0 <= k < |rest| ==> rest[k] == ReceiptOf(pending[1..][k], ProxyDeliver(env, pending[1..][k], m))
    ensures var t := [ReceiptOf(pending[0], ProxyDeliver(env, pending[0], m))] + rest;
      forall k :: 0 <= k < |t| ==> t[k] == ReceiptOf(pending[k], ProxyDeliver(env, pending[k], m))
  {
    var t := [ReceiptOf(pending[0], ProxyDeliver(env, pending[0], m))] + rest;
    forall k | 0 < k < |t| ensures t[k] == ReceiptOf(pending[k], ProxyDeliver(env, pending[k], m)) {
      assert t[k] == rest[k - 1] && pending[1..][k - 1] == pending[k];
    }
  }

  /** A swallowed (or absent) failure in front of a trace the error handler
      shaped gives a trace the error handler shaped, with the same escape. */
  lemma HandledCons(env: Env, handler: ErrorHandler, m: Message, first: Receipt, rest: seq<Receipt>, thrown: Option<Exn>)
    requires first.error.None? || HandleError(env, handler, m, first.error.value).None?
    requires HandledInTurn(env, handler, m, rest, thrown)
    requires thrown.None? ==> forall k :: 0 <= k < |rest| ==>
      rest[k].error.None? || HandleError(env, handler, m, rest[k].error.value).None?
    ensures var t := [first] + rest;
      && HandledInTurn(env, handler, m, t, thrown)
      && (thrown.None? ==> forall k :: 0 <= k < |t| ==>
            t[k].error.None? || HandleError(env, handler, m, t[k].error.value).None?)
  {
    var t := [first] + rest;
    assert forall k :: 0 < k < |t| ==> t[k] == rest[k - 1];
  }

  /** The delivery loop of `PublishInternal`: each snapshot item in turn
      through its proxy; an exception goes to the error handler and delivery
      goes on, unless the error handler itself throws. */
  function DeliverAll(env: Env, h: Hub, m: Message, pending: seq<Item>): (r: Published)
    decreases |pending|
    ensures |r.trace| <= |pending|
    ensures forall k :: 0 <= k < |r.trace| ==> r.trace[k] == ReceiptOf(pending[k], ProxyDeliver(env, pending[k], m))
    ensures r.thrown.None? ==> |r.trace| == |pending|
    ensures r.thrown.Some? ==> |r.trace| > 0 && r.trace[|r.trace| - 1].error.Some?
    ensures r.thrown.Some? ==> r.thrown == HandleError(env, h.errorHandler, m, r.trace[|r.trace| - 1].error.value)
    ensures forall k :: 0 <= k < |r.trace| - 1 ==>
      r.trace[k].error.None? || HandleError(env, h.errorHandler, m, r.trace[k].error.value).None?
    ensures r.thrown.None? ==> forall k :: 0 <= k < |r.trace| ==>
      r.trace[k].error.None? || HandleError(env, h.errorHandler, m, r.trace[k].error.value).None?
    ensures HandledInTurn(env, h.errorHandler, m, r.trace, r.thrown)
    ensures h.errorHandler == DefaultHandler ==> r.thrown.None?
    ensures r.hub == ApplyEdits(h, EditsOf(env, pending[..|r.trace|], m))
    ensures r.hub.errorHandler == h.errorHandler
    ensures Valid(h) ==> Valid(r.hub)
  {
    if pending == [] then Published(h, [], None)
    else
      var item := pending[0];
      var d := ProxyDeliver(env, item, m);
      var h1 := ApplyEdits(h, d.edits);
      var receipt := ReceiptOf(item, d);
      var escaped := if d.error.Some? then HandleError(env, h.errorHandler, m, d.error.value) else None;
      if escaped.Some? then
        DeliveredEdits(env, h, m, pending, 0);
        Published(h1, [receipt], escaped)
      else
        var rest := DeliverAll(env, h1, m, pending[1..]);
        var n := |rest.trace|;
        DeliveredEdits(env, h, m, pending, n);
        TraceCons(env, m, pending, rest.trace);
        HandledCons(env, h.errorHandler, m, receipt, rest.trace, rest.thrown);
        var r := Published(rest.hub, [receipt] + rest.trace, rest.thrown);
        assert |r.trace| == n + 1;
        r
  }

  /** `Publish`: a null message is an argument error; otherwise the snapshot
      is taken first and then delivered, so changes made while delivering do
      not change whom this message goes to. */
  function Publish(h: Hub, env: Env, m: Option<Message>): (r: Published)
    ensures m.None? ==> r == Published(h, [], Some(ArgumentNull("message")))
    ensures m.Some? && Snapshot(env, h.items, m.value).Err? ==>
      r == Published(h, [], Some(Snapshot(env, h.items, m.value).error))
    ensures m.Some? && Snapshot(env, h.items, m.value).Ok? ==>
      var s := Snapshot(env, h.items, m.value).value;
      && |r.trace| <= |s|
      && (forall k :: 0 <= k < |r.trace| ==> r.trace[k] == ReceiptOf(s[k], ProxyDeliver(env, s[k], m.value)))
      && (r.thrown.None? ==> |r.trace| == |s|)
      && HandledInTurn(env, h.errorHandler, m.value, r.trace, r.thrown)
      && (h.errorHandler == DefaultHandler ==> r.thrown.None?)
    ensures m.Some? && Snapshot(env, h.items, m.value).Ok? ==>
      var s := Snapshot(env, h.items, m.value).value;
      |r.trace| <= |s| && r.hub == ApplyEdits(h, EditsOf(env, s[..|r.trace|], m.value))
    ensures Valid(h) ==> Valid(r.hub)
    ensures r.hub.errorHandler == h.errorHandler
  {
    match m
    case None => Published(h, [], Some(ArgumentNull("message")))
    case Some(msg) =>
      match Snapshot(env, h.items, msg)
      case Err(e) => Published(h, [], Some(e))
      case Ok(s) => DeliverAll(env, h, msg, s)
  }
}
