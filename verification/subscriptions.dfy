/** Subscriptions held by the bus, the delivery proxies, and the behaviour of
    the user code (filters, delivery actions, proxies, error handlers) that the
    bus calls into. */
module Subscriptions {
  import opened Common
  import opened Messages

  /** A subscription token.  Tokens are compared by reference in .NET; every
      subscription gets a fresh one, so a number issued once per subscription
      stands for that identity. */
  type Token = nat

  /** How the subscription holds its delivery action and filter. */
  datatype Mode = Strong | Weak

  /** The message filter: the `(m) => true` default the bus substitutes, or a
      filter supplied by the subscriber. */
  datatype Filter = AcceptAll | UserFilter(id: nat)

  /** The delivery proxy: the pass-through default singleton, or one supplied
      by the subscriber (for example one that marshals onto another thread). */
  datatype Proxy = DefaultProxy | UserProxy(id: nat)

  /** One subscription.  For a weak subscription the two liveness flags say
      whether the delivery action and the filter are still reachable; a strong
      subscription holds both, so its flags are never consulted. */
  datatype Subscription = Subscription(
    token: Token,
    messageType: TypeTag,
    action: nat,
    filter: Filter,
    mode: Mode,
    actionAlive: bool,
    filterAlive: bool)

  /** A registry entry: the proxy that delivers, and the subscription. */
  datatype Item = Item(proxy: Proxy, subscription: Subscription)

  /** What a user filter does when invoked. */
  datatype FilterVerdict = Accept | Reject | FilterThrows(error: nat)

  /** What a user proxy does with a delivery: pass it on now, hold it (deliver
      it elsewhere, outside this publish), or throw. */
  datatype ProxyVerdict = Forward | Hold | ProxyThrows(error: nat)

  /** A registry change that a delivery action makes through the bus while it
      runs: a new subscription, or an unsubscribe. */
  datatype Edit =
    | Add(messageType: TypeTag, action: nat, filter: Filter, mode: Mode, proxy: Proxy)
    | Remove(token: Token)

  /** What a delivery action does when invoked: the registry changes it makes,
      then either a normal return or an exception. */
  datatype Reaction = Reaction(edits: seq<Edit>, thrown: Option<nat>)

  /** The behaviour of all user code, by id.  An error handler returns the
      exception it throws, if any. */
  datatype Env = Env(
    filters: (nat, Message) -> FilterVerdict,
    actions: (nat, Message) -> Reaction,
    proxies: (nat, Message) -> ProxyVerdict,
    errorHandlers: (nat, Message, Exn) -> Option<nat>)

  /** The answer of `ShouldAttemptDelivery`; `Fault` is an exception escaping
      from the filter. */
  datatype Verdict = Attempt | Skip | Fault(error: Exn)

  /** The effect of one delivery: whether the delivery action ran, the registry
      changes it made, and the exception that escaped, if any. */
  datatype Delivery = Delivery(invoked: bool, edits: seq<Edit>, error: Option<Exn>)

  /** A weak subscription whose action or filter has been collected. */
  predicate Dead(s: Subscription) {
    s.mode == Weak && !(s.actionAlive && s.filterAlive)
  }

  /** `ShouldAttemptDelivery`, the same for both subscription kinds except that
      a weak one first checks that its action and filter are still alive. */
  function ShouldAttemptDelivery(env: Env, s: Subscription, m: Option<Message>): (r: Verdict)
    ensures m.None? ==> r == Skip
    ensures m.Some? && !Is(m.value, s.messageType) ==> r == Skip
    ensures Dead(s) ==> r == Skip
    ensures r == Attempt ==> m.Some? && Is(m.value, s.messageType) && !Dead(s)
    ensures r.Fault? ==> s.filter.UserFilter? && m.Some?
    ensures r.Fault? ==> env.filters(s.filter.id, m.value).FilterThrows?
    ensures r.Fault? ==> r.error == Raised(env.filters(s.filter.id, m.value).error)
    ensures m.Some? && Is(m.value, s.messageType) && !Dead(s) && s.filter == AcceptAll ==> r == Attempt
    ensures m.Some? && Is(m.value, s.messageType) && !Dead(s) && s.filter.UserFilter? ==>
      (r == Attempt <==> env.filters(s.filter.id, m.value) == Accept)
    ensures m.Some? && Is(m.value, s.messageType) && !Dead(s) && s.filter.UserFilter? ==>
      (env.filters(s.filter.id, m.value).FilterThrows? ==>
         r == Fault(Raised(env.filters(s.filter.id, m.value).error)))
  {
    if m.None? then Skip
    else if !Is(m.value, s.messageType) then Skip
    else if s.mode == Weak && !s.actionAlive then Skip
    else if s.mode == Weak && !s.filterAlive then Skip
    else
      match s.filter
      case AcceptAll => Attempt
      case UserFilter(id) =>
        match env.filters(id, m.value)
        case Accept => Attempt
        case Reject => Skip
        case FilterThrows(e) => Fault(Raised(e))
  }

  /** `Deliver` of a subscription: a message of the wrong type is an argument
      error, a weak subscription whose action is gone returns silently, and
      otherwise the delivery action runs. */
  function Deliver(env: Env, s: Subscription, m: Message): (r: Delivery)
    ensures !Is(m, s.messageType) ==> r == Delivery(false, [], Some(WrongMessageType))
    ensures Is(m, s.messageType) && s.mode == Weak && !s.actionAlive ==> r == Delivery(false, [], None)
    ensures r.invoked <==> Is(m, s.messageType) && !(s.mode == Weak && !s.actionAlive)
    ensures r.invoked ==> r.edits == env.actions(s.action, m).edits
    ensures r.invoked ==> (r.error.Some? <==> env.actions(s.action, m).thrown.Some?)
    ensures r.invoked && r.error.Some? ==> r.error.value == Raised(env.actions(s.action, m).thrown.value)
  {
    if !Is(m, s.messageType) then Delivery(false, [], Some(WrongMessageType))
    else if s.mode == Weak && !s.actionAlive then Delivery(false, [], None)
    else
      var reaction := env.actions(s.action, m);
      match reaction.thrown
      case None => Delivery(true, reaction.edits, None)
      case Some(e) => Delivery(true, reaction.edits, Some(Raised(e)))
  }

  /** `IBusProxy.Deliver`: the default proxy passes the message straight to
      the subscription; a user proxy decides. */
  function ProxyDeliver(env: Env, item: Item, m: Message): (r: Delivery)
    ensures item.proxy == DefaultProxy ==> r == Deliver(env, item.subscription, m)
    ensures item.proxy.UserProxy? && env.proxies(item.proxy.id, m) == Forward ==>
      r == Deliver(env, item.subscription, m)
    ensures item.proxy.UserProxy? && env.proxies(item.proxy.id, m) == Hold ==> r == Delivery(false, [], None)
    ensures item.proxy.UserProxy? && env.proxies(item.proxy.id, m).ProxyThrows? ==>
      r == Delivery(false, [], Some(Raised(env.proxies(item.proxy.id, m).error)))
    ensures r.invoked ==> r == Deliver(env, item.subscription, m)
  {
    match item.proxy
    case DefaultProxy => Deliver(env, item.subscription, m)
    case UserProxy(id) =>
      match env.proxies(id, m)
      case Forward => Deliver(env, item.subscription, m)
      case Hold => Delivery(false, [], None)
      case ProxyThrows(e) => Delivery(false, [], Some(Raised(e)))
  }

  /** The subscriber's delivery action and/or filter become unreachable.  Only
      a weak subscription lets go of them, and the bus's own `(m) => true`
      default is a cached delegate that is never collected. */
  function ReleaseTargets(s: Subscription, action: bool, filter: bool): (r: Subscription)
    ensures r.token == s.token && r.mode == s.mode && r.messageType == s.messageType
    ensures s.mode == Strong ==> r == s
    ensures s.mode == Weak && action ==> Dead(r)
    ensures s.mode == Weak && filter && s.filter.UserFilter? ==> Dead(r)
    ensures Dead(s) ==> Dead(r)
    ensures !action && (!filter || s.filter == AcceptAll) ==> r == s
  {
    if s.mode == Strong then s
    else s.(actionAlive := s.actionAlive && !action,
            filterAlive := s.filterAlive && !(filter && s.filter.UserFilter?))
  }

  /** An accepted subscription is really delivered to when its proxy forwards:
      the liveness and type tests of `ShouldAttemptDelivery` are exactly the
      ones `Deliver` repeats. */
  lemma AttemptedDeliveryInvokes(env: Env, s: Subscription, m: Message)
    requires ShouldAttemptDelivery(env, s, Some(m)) == Attempt
    ensures Deliver(env, s, m).invoked
    ensures Deliver(env, s, m).error.None? <==> env.actions(s.action, m).thrown.None?
  {
  }
}
