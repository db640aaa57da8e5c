/** Properties of the hub that relate several operations: subscribe and
    unsubscribe undo each other, removal and the publish snapshot respect the
    registry order, delivery is isolated per subscriber, and registry changes
    made during delivery do not change the current publish. */
module BusProofs {
  import opened Common
  import opened Messages
  import opened Subscriptions
  import opened Bus

  /** Removal of a token works item by item: it splits over concatenation,
      which is what "every other item keeps its relative order" means. */
  lemma {:induction false} RemoveTokenDistributes(a: seq<Item>, b: seq<Item>, t: Token)
    ensures RemoveToken(a + b, t) == RemoveToken(a, t) + RemoveToken(b, t)
  {
    if a == [] {
      assert a + b == b;
    } else {
      assert (a + b)[1..] == a[1..] + b;
      RemoveTokenDistributes(a[1..], b, t);
    }
  }

  /** Unsubscribe drops exactly the items holding the token and keeps every
      other item, in its original order: with the token's item between two
      stretches that do not hold it, the result is the two stretches joined. */
  lemma UnsubscribeKeepsOrder(h: Hub, before: seq<Item>, x: Item, after: seq<Item>)
    requires h.items == before + [x] + after
    requires !Holds(before, x.subscription.token) && !Holds(after, x.subscription.token)
    ensures Unsubscribe(h, Some(x.subscription.token)).value.items == before + after
  {
    var t := x.subscription.token;
    assert Unsubscribe(h, Some(t)).value.items == RemoveToken(h.items, t);
    RemoveTokenDistributes(before + [x], after, t);
    RemoveTokenDistributes(before, [x], t);
    assert RemoveToken([x], t) == [] by {
      assert Holds([x], t);
    }
    assert RemoveToken(before, t) == before;
    assert RemoveToken(after, t) == after;
    assert before + [] == before;
  }

  /** Unsubscribing the token a subscribe returned gives back exactly the
      registry as it was before the subscribe. */
  lemma SubscribeThenUnsubscribe(h: Hub, messageType: TypeTag, action: Option<nat>, filter: Option<Filter>,
                                 strong: bool, proxy: Option<Proxy>)
    requires Valid(h)
    requires AddSubscription(h, messageType, action, filter, strong, proxy).Ok?
    ensures var s := AddSubscription(h, messageType, action, filter, strong, proxy).value;
      Unsubscribe(s.hub, Some(s.token)).value.items == h.items
  {
    var s := AddSubscription(h, messageType, action, filter, strong, proxy).value;
    var added := s.hub.items[|h.items|];
    assert s.hub.items == h.items + [added];
    RemoveTokenDistributes(h.items, [added], s.token);
    assert RemoveToken([added], s.token) == [];
  }

  /** A second unsubscribe with the same token changes nothing. */
  lemma UnsubscribeIdempotent(h: Hub, t: Token)
    ensures var once := Unsubscribe(h, Some(t)).value;
      Unsubscribe(once, Some(t)) == Ok(once)
  {
  }

  /** Token `t` was issued by this hub and has since been removed: tokens are
      distinct objects compared by reference, so nothing holds it again. */
  predicate Retired(h: Hub, t: Token) {
    t < h.nextToken && !Holds(h.items, t)
  }

  /** One registry change keeps a retired token retired: a subscribe issues a
      token above it, and an unsubscribe only removes items. */
  lemma RetiredAfterEdit(h: Hub, e: Edit, t: Token)
    requires Retired(h, t)
    ensures Retired(ApplyEdit(h, e), t)
  {
    var r := ApplyEdit(h, e);
    forall i | 0 <= i < |r.items| ensures r.items[i].subscription.token != t {
      if e.Add? {
        if i < |h.items| {
          assert r.items[i] == r.items[..|h.items|][i] == h.items[i];
        }
      } else {
        assert r.items[i] in r.items;
        var j :| 0 <= j < |h.items| && h.items[j] == r.items[i];
      }
    }
  }

  /** Once unsubscribed, a token stays dead however many subscribes and
      unsubscribes follow: nothing holds it again, and unsubscribing it once
      more changes nothing. */
  lemma {:induction false} RetiredTokenStaysRetired(h: Hub, es: seq<Edit>, t: Token)
    requires Retired(h, t)
    decreases |es|
    ensures Retired(ApplyEdits(h, es), t)
    ensures Unsubscribe(ApplyEdits(h, es), Some(t)) == Ok(ApplyEdits(h, es))
  {
    if es != [] {
      RetiredAfterEdit(h, es[0], t);
      RetiredTokenStaysRetired(ApplyEdit(h, es[0]), es[1..], t);
    }
  }

  /** The public operations in particular: after a token is unsubscribed, a
      later `Subscribe` hands out a different token and a later `Unsubscribe`
      does not bring it back. */
  lemma RetiredAcrossCalls(h: Hub, t: Token, messageType: TypeTag, action: Option<nat>,
                           filter: Arg<Option<Filter>>, strong: Arg<bool>, proxy: Arg<Option<Proxy>>,
                           other: Option<Token>)
    requires Valid(h) && Unsubscribe(h, Some(t)).Ok? && t < h.nextToken
    ensures var u := Unsubscribe(h, Some(t)).value;
      Retired(u, t)
      && (Subscribe(u, messageType, action, filter, strong, proxy).Ok? ==>
            Subscribe(u, messageType, action, filter, strong, proxy).value.token != t
            && Retired(Subscribe(u, messageType, action, filter, strong, proxy).value.hub, t))
      && (Unsubscribe(u, other).Ok? ==> Retired(Unsubscribe(u, other).value, t))
  {
    var u := Unsubscribe(h, Some(t)).value;
    var s := Subscribe(u, messageType, action, filter, strong, proxy);
    if s.Ok? {
      var items := s.value.hub.items;
      forall i | 0 <= i < |items| ensures items[i].subscription.token != t {
        if i < |u.items| {
          assert items[i] == items[..|u.items|][i] == u.items[i];
        }
      }
    }
    if other.Some? {
      RetiredAfterEdit(u, Remove(other.value), t);
    }
  }

  /** The snapshot is taken item by item in registry order: over a split
      registry it is the snapshot of the front followed by that of the back. */
  lemma {:induction false} SnapshotDistributes(env: Env, a: seq<Item>, b: seq<Item>, m: Message)
    requires Snapshot(env, a, m).Ok? && Snapshot(env, b, m).Ok?
    ensures Snapshot(env, a + b, m) == Ok(Snapshot(env, a, m).value + Snapshot(env, b, m).value)
  {
    var sb := Snapshot(env, b, m).value;
    if a == [] {
      assert a + b == b;
      assert [] + sb == sb;
    } else {
      assert (a + b)[1..] == a[1..] + b;
      assert (a + b)[0] == a[0];
      var v := ShouldAttemptDelivery(env, a[0].subscription, Some(m));
      assert !v.Fault?;
      assert Snapshot(env, a[1..], m).Ok?;
      SnapshotDistributes(env, a[1..], b, m);
      var sa' := Snapshot(env, a[1..], m).value;
      if v == Attempt {
        assert Snapshot(env, a, m).value == [a[0]] + sa';
        AppendAssoc([a[0]], sa', sb);
      }
    }
  }

  /** A throwing filter in the front of the registry ends the snapshot before
      anything behind it is looked at. */
  lemma {:induction false} SnapshotStopsAtFault(env: Env, a: seq<Item>, b: seq<Item>, m: Message)
    requires Snapshot(env, a, m).Err?
    ensures Snapshot(env, a + b, m) == Snapshot(env, a, m)
  {
    assert a != [];
    assert (a + b)[1..] == a[1..] + b;
    assert (a + b)[0] == a[0];
    var v := ShouldAttemptDelivery(env, a[0].subscription, Some(m));
    if !v.Fault? {
      assert Snapshot(env, a[1..], m).Err?;
      SnapshotStopsAtFault(env, a[1..], b, m);
    }
  }

  /** The same user code, except that delivery actions make no registry
      changes. */
  function Quiet(env: Env): (q: Env)
    ensures q.filters == env.filters && q.proxies == env.proxies && q.errorHandlers == env.errorHandlers
    ensures forall id, m :: q.actions(id, m).edits == [] && q.actions(id, m).thrown == env.actions(id, m).thrown
  {
    env.(actions := (id: nat, m: Message) => Reaction([], env.actions(id, m).thrown))
  }

  lemma {:induction false} SnapshotIgnoresActions(env: Env, items: seq<Item>, m: Message)
    ensures Snapshot(Quiet(env), items, m) == Snapshot(env, items, m)
  {
    if items != [] {
      SnapshotIgnoresActions(env, items[1..], m);
      assert ShouldAttemptDelivery(Quiet(env), items[0].subscription, Some(m))
          == ShouldAttemptDelivery(env, items[0].subscription, Some(m));
    }
  }

  lemma {:induction false} DeliverAllIgnoresEdits(env: Env, h1: Hub, h2: Hub, m: Message, pending: seq<Item>)
    requires h1.errorHandler == h2.errorHandler
    decreases |pending|
    ensures DeliverAll(env, h1, m, pending).trace == DeliverAll(Quiet(env), h2, m, pending).trace
    ensures DeliverAll(env, h1, m, pending).thrown == DeliverAll(Quiet(env), h2, m, pending).thrown
  {
    if pending != [] {
      var d1 := ProxyDeliver(env, pending[0], m);
      var d2 := ProxyDeliver(Quiet(env), pending[0], m);
      assert d2 == d1.(edits := []);
      var e1 := if d1.error.Some? then HandleError(env, h1.errorHandler, m, d1.error.value) else None;
      var e2 := if d2.error.Some? then HandleError(Quiet(env), h2.errorHandler, m, d2.error.value) else None;
      assert e1 == e2;
      if e1.None? {
        DeliverAllIgnoresEdits(env, ApplyEdits(h1, d1.edits), ApplyEdits(h2, d2.edits), m, pending[1..]);
      }
    }
  }

  /** Subscribes and unsubscribes that delivery actions make while a message
      is being delivered do not change whom that message goes to, in what
      order, or what escapes: the receipts are those of a run in which the
      actions change nothing. */
  lemma PublishIgnoresHandlerEdits(h: Hub, env: Env, m: Option<Message>)
    ensures Publish(h, env, m).trace == Publish(h, Quiet(env), m).trace
    ensures Publish(h, env, m).thrown == Publish(h, Quiet(env), m).thrown
  {
    if m.Some? {
      SnapshotIgnoresActions(env, h.items, m.value);
      if Snapshot(env, h.items, m.value).Ok? {
        DeliverAllIgnoresEdits(env, h, h, m.value, Snapshot(env, h.items, m.value).value);
      }
    }
  }

  /** With the default error handler a failing subscriber never stops the
      others: every snapshot item gets its delivery, each one that goes
      through the default proxy has its action run, and nothing escapes to
      the publisher. */
  lemma FailuresAreIsolated(h: Hub, env: Env, m: Message)
    requires h.errorHandler == DefaultHandler
    requires Snapshot(env, h.items, m).Ok?
    ensures var s := Snapshot(env, h.items, m).value;
      var r := Publish(h, env, Some(m));
      && r.thrown.None? && |r.trace| == |s|
      && (forall k :: 0 <= k < |s| ==> r.trace[k].token == s[k].subscription.token)
      && (forall k :: 0 <= k < |s| && s[k].proxy == DefaultProxy ==> r.trace[k].invoked)
  {
    var s := Snapshot(env, h.items, m).value;
    forall k | 0 <= k < |s| && s[k].proxy == DefaultProxy
      ensures ProxyDeliver(env, s[k], m).invoked
    {
      AttemptedDeliveryInvokes(env, s[k].subscription, m);
    }
  }

  /** A subscription removed before a publish receives nothing from it. */
  lemma UnsubscribedReceivesNothing(h: Hub, env: Env, t: Token, m: Message)
    ensures var r := Publish(Unsubscribe(h, Some(t)).value, env, Some(m));
      forall k :: 0 <= k < |r.trace| ==> r.trace[k].token != t
  {
    var h' := Unsubscribe(h, Some(t)).value;
    var r := Publish(h', env, Some(m));
    if Snapshot(env, h'.items, m).Ok? {
      var s := Snapshot(env, h'.items, m).value;
      forall k | 0 <= k < |r.trace| ensures r.trace[k].token != t {
        assert s[k] in h'.items;
      }
    }
  }

  /** A weak subscriber whose delivery action has been collected gets no
      delivery and causes no error; the subscriptions themselves stay in the
      registry. */
  lemma CollectedWeakSubscriberReceivesNothing(h: Hub, env: Env, i: nat, m: Message)
    requires Valid(h) && i < |h.items| && h.items[i].subscription.mode == Weak
    ensures var t := h.items[i].subscription.token;
      var h' := CollectTargets(h, t, true, false);
      var r := Publish(h', env, Some(m));
      && |h'.items| == |h.items|
      && forall k :: 0 <= k < |r.trace| ==> r.trace[k].token != t
  {
    var t := h.items[i].subscription.token;
    var h' := CollectTargets(h, t, true, false);
    var r := Publish(h', env, Some(m));
    if Snapshot(env, h'.items, m).Ok? {
      var s := Snapshot(env, h'.items, m).value;
      assert Dead(h'.items[i].subscription);
      forall x | x in h'.items && x.subscription.token == t ensures Dead(x.subscription) {
        var j :| 0 <= j < |h'.items| && h'.items[j] == x;
        assert j == i;
      }
      forall k | 0 <= k < |r.trace| ensures r.trace[k].token != t {
        assert s[k] in h'.items && !Dead(s[k].subscription);
      }
    }
  }

  /** Two subscribers to the same type through the default overload: the
      first throws, the second records.  Publishing reaches both, in
      subscription order, and the publisher sees no exception. */
  lemma ThrowingSubscriberScenario()
    ensures
      var h0 := NewHub();
      var a := Subscribe(h0, "Ping", Some(0), Omitted, Omitted, Omitted).value;
      var b := Subscribe(a.hub, "Ping", Some(1), Omitted, Omitted, Omitted).value;
      var env := Env((id, m) => Reject,
                     (id, m) => if id == 0 then Reaction([], Some(7)) else Reaction([], None),
                     (id, m) => Forward,
                     (id, m, e) => None);
      var msg := Message("Ping", BaseTypes, 42, true, 5);
      Publish(b.hub, env, Some(msg)) ==
        Published(b.hub, [Receipt(a.token, true, Some(Raised(7))), Receipt(b.token, true, None)], None)
  {
    var h0 := NewHub();
    var a := Subscribe(h0, "Ping", Some(0), Omitted, Omitted, Omitted).value;
    var b := Subscribe(a.hub, "Ping", Some(1), Omitted, Omitted, Omitted).value;
    var env := Env((id, m) => Reject,
                   (id, m) => if id == 0 then Reaction([], Some(7)) else Reaction([], None),
                   (id, m) => Forward,
                   (id, m, e) => None);
    var msg := Message("Ping", BaseTypes, 42, true, 5);
    var items := b.hub.items;
    assert items == [Item(DefaultProxy, Subscription(0, "Ping", 0, AcceptAll, Strong, true, true)),
                     Item(DefaultProxy, Subscription(1, "Ping", 1, AcceptAll, Strong, true, true))];
    assert ShouldAttemptDelivery(env, items[0].subscription, Some(msg)) == Attempt;
    assert ShouldAttemptDelivery(env, items[1].subscription, Some(msg)) == Attempt;
    var tail := items[1..];
    assert tail[0] == items[1] && tail[1..] == [];
    assert Snapshot(env, tail[1..], msg) == Ok([]);
    assert [tail[0]] + [] == [items[1]];
    assert Snapshot(env, tail, msg) == Ok([items[1]]);
    assert Snapshot(env, items, msg) == Ok(items);
    var r := Publish(b.hub, env, Some(msg));
    assert r == DeliverAll(env, b.hub, msg, items);
    assert r.thrown.None? && |r.trace| == 2;
  }

  /** The hub after subscribing, through the overloads, to `Ping` with the
      filter "content > 0" (token 0) and weakly to the base type `IBusMessage`
      without a filter (token 1). */
  function TwoSubscriberHub(): (h: Hub)
    ensures Valid(h)
    ensures h.items == [Item(DefaultProxy, Subscription(0, "Ping", 0, UserFilter(0), Strong, true, true)),
                        Item(DefaultProxy, Subscription(1, "IBusMessage", 1, AcceptAll, Weak, true, true))]
  {
    var p := Subscribe(NewHub(), "Ping", Some(0), Given(Some(UserFilter(0))), Omitted, Omitted).value;
    Subscribe(p.hub, "IBusMessage", Some(1), Omitted, Given(false), Omitted).value.hub
  }

  function PositiveFilterEnv(): Env {
    Env((id: nat, m: Message) => if m.content > 0 then Accept else Reject,
        (id: nat, m: Message) => Reaction([], None),
        (id: nat, m: Message) => Forward,
        (id: nat, m: Message, e: Exn) => None)
  }

  /** A positive ping reaches both subscribers, in subscription order. */
  lemma PositivePingScenario()
    ensures Publish(TwoSubscriberHub(), PositiveFilterEnv(), Some(Message("Ping", BaseTypes, 42, true, 5))).trace
      == [Receipt(0, true, None), Receipt(1, true, None)]
  {
    var h := TwoSubscriberHub();
    var m := Message("Ping", BaseTypes, 42, true, 5);
    var env := PositiveFilterEnv();
    assert env.filters(0, m) == Accept;
    assert ShouldAttemptDelivery(env, h.items[0].subscription, Some(m)) == Attempt;
    assert ShouldAttemptDelivery(env, h.items[1].subscription, Some(m)) == Attempt;
    var tail := h.items[1..];
    assert tail[0] == h.items[1] && tail[1..] == [];
    assert Snapshot(env, tail[1..], m) == Ok([]);
    assert ShouldAttemptDelivery(env, tail[0].subscription, Some(m)) == Attempt;
    assert [tail[0]] + [] == [h.items[1]];
    assert Snapshot(env, tail, m) == Ok([h.items[1]]);
    assert Snapshot(env, h.items, m) == Ok(h.items);
  }

  /** A negative ping is filtered out and reaches only the base-type
      subscriber. */
  lemma NegativePingScenario()
    ensures Publish(TwoSubscriberHub(), PositiveFilterEnv(), Some(Message("Ping", BaseTypes, 42, true, -1))).trace
      == [Receipt(1, true, None)]
  {
    var h := TwoSubscriberHub();
    var m := Message("Ping", BaseTypes, 42, true, -1);
    var env := PositiveFilterEnv();
    assert env.filters(0, m) == Reject;
    assert ShouldAttemptDelivery(env, h.items[0].subscription, Some(m)) == Skip;
    assert ShouldAttemptDelivery(env, h.items[1].subscription, Some(m)) == Attempt;
    var tail := h.items[1..];
    assert tail[0] == h.items[1] && tail[1..] == [];
    assert Snapshot(env, tail[1..], m) == Ok([]);
    assert ShouldAttemptDelivery(env, tail[0].subscription, Some(m)) == Attempt;
    assert [tail[0]] + [] == [h.items[1]];
    assert Snapshot(env, tail, m) == Ok([h.items[1]]);
    assert Snapshot(env, h.items, m) == Ok(h.items[1..]);
  }

  /** A message of an unrelated type misses the `Ping` subscriber but, being
      an `IBusMessage` like every bus message, still reaches the base-type
      subscriber. */
  lemma UnrelatedTypeScenario()
    ensures Publish(TwoSubscriberHub(), PositiveFilterEnv(), Some(Message("Pong", BaseTypes, 42, true, 5))).trace
      == [Receipt(1, true, None)]
  {
    var h := TwoSubscriberHub();
    var m := Message("Pong", BaseTypes, 42, true, 5);
    var env := PositiveFilterEnv();
    assert ShouldAttemptDelivery(env, h.items[0].subscription, Some(m)) == Skip;
    assert ShouldAttemptDelivery(env, h.items[1].subscription, Some(m)) == Attempt;
    var tail := h.items[1..];
    assert tail[0] == h.items[1] && tail[1..] == [];
    assert Snapshot(env, tail[1..], m) == Ok([]);
    assert ShouldAttemptDelivery(env, tail[0].subscription, Some(m)) == Attempt;
    assert [tail[0]] + [] == [h.items[1]];
    assert Snapshot(env, tail, m) == Ok([h.items[1]]);
    assert Snapshot(env, h.items, m) == Ok(h.items[1..]);
  }
}
