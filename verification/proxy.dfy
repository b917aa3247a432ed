/**
 * The DynamoDb client proxy (class M6Web\Bundle\AwsBundle\Aws\DynamoDb\Proxy):
 * it forwards every call to the wrapped client, translates the client's
 * DynamoDbException into its own exception, and, once an event dispatcher is
 * bound, publishes one event per successful call.
 */
module DynamoDb {
  import opened Wrappers
  import opened Php
  import opened ProxySpec

  class Proxy<V> {
    /** The wrapped client (`$client`); null only if a subclass clears it. */
    var client: Option<Client<V>>
    /** `$eventDispatcher`, null until setEventDispatcher succeeds. */
    var eventDispatcher: Value
    /** `$eventClass`, null until setEventDispatcher succeeds. */
    var eventClass: Option<string>
    /** Every `dispatch` call made on a dispatcher by this proxy, oldest first. */
    ghost var published: seq<Publication<V>>

    /**
     * Both binding fields are null, or both are set; a bound dispatcher is an
     * object with a dispatch method.
     */
    ghost predicate Valid()
      reads this
    {
      (eventDispatcher == Null && eventClass == None)
      || (MethodExists(eventDispatcher, DispatchMethod) && eventClass.Some?)
    }

    /** The binding the two fields represent. */
    ghost function Binding(): Binding
      reads this
      requires Valid()
    {
      if eventDispatcher.Instance? then Observed(eventDispatcher.obj, eventClass.value) else Unobserved
    }

    constructor (c: Client<V>)
      ensures Valid() && client == Some(c)
      ensures Binding() == Unobserved && published == []
    {
      client := Some(c);
      eventDispatcher := Null;
      eventClass := None;
      published := [];
    }

    /** Direct access to the wrapped client. */
    method GetClient() returns (c: Option<Client<V>>)
      ensures c == client
    {
      c := client;
    }

    /** Publishes one event describing a call, if a dispatcher is bound. */
    method NotifyEvent(command: string, arguments: seq<V>, time: real := 0.0)
      requires Valid()
      modifies this`published
      ensures Valid()
      ensures published == old(published) + Notify(Binding(), command, arguments, time)
    {
      if Truthy(eventDispatcher) {
        var className := eventClass.value;
        var event := Event(className, command, time, arguments);
        published := published + [Publication(eventDispatcher.obj, Topic, event)];
      }
    }

    /**
     * Binds an event dispatcher and the name of the event class to build,
     * after checking both; `classes` holds the declared classes. On failure
     * neither field changes.
     */
    method SetEventDispatcher(dispatcher: Value, eventClass: string, classes: map<string, ClassInfo>)
      returns (r: Outcome)
      requires Valid()
      modifies this`eventDispatcher, this`eventClass
      ensures Valid()
      ensures match Bind(dispatcher, eventClass, classes)
        case Ok(b) => r == Completed && Binding() == b
        case Err(e) => r == Threw(e) && this.eventDispatcher == old(this.eventDispatcher)
                       && this.eventClass == old(this.eventClass)
    {
      if !IsObject(dispatcher) || !MethodExists(dispatcher, DispatchMethod) {
        return Threw(Thrown(ProxyException, NotADispatcherMessage));
      }
      if eventClass !in classes {
        return Threw(Thrown(ReflectionException, MissingClassMessage(eventClass)));
      }
      if !ImplementsInterface(classes[eventClass], DispatcherInterface) {
        return Threw(Thrown(ProxyException, EventClassMessage(eventClass)));
      }
      this.eventDispatcher := dispatcher;
      this.eventClass := Some(eventClass);
      r := Completed;
    }

    /**
     * `__call`: forwards `name` and `arguments` to the client; `start` and
     * `stop` are the clock readings taken before the call and after it returns.
     */
    method Call(name: string, arguments: seq<V>, start: real, stop: real) returns (r: CallResult<V>)
      requires Valid()
      modifies this`published
      ensures Valid()
      ensures var e := Invoke(client, Binding(), name, arguments, stop - start);
        r == e.result && published == old(published) + e.published
    {
      var c := GetClient();
      if c.Some? {
        var outcome := c.value.call(name, arguments);
        match outcome {
          case Returned(v) =>
            NotifyEvent(name, arguments, stop - start);
            r := Return(v);
          case DynamoDbError(message) =>
            r := Raise(Thrown(ProxyException, CallErrorMessage(name, message)));
          case OtherError(e) =>
            r := Raise(e);
        }
      } else {
        r := Raise(Thrown(ProxyException, NoClientMessage));
      }
    }
  }

  /**
   * Performs `ops` on proxy `p`, one method call per operation, in order. The
   * binding and the publications that result are those of `Run`, so every
   * lemma about `Run` holds of the class. `classes` is the one table of
   * declared classes every setEventDispatcher in `ops` consults.
   */
  method Execute<V>(p: Proxy<V>, classes: map<string, ClassInfo>, ops: seq<Op<V>>)
    requires p.Valid()
    modifies p
    ensures p.Valid() && p.client == old(p.client)
    ensures var o := Run(old(p.client), classes, old(p.Binding()), ops);
      p.Binding() == o.binding && p.published == old(p.published) + o.published
  {
    ghost var b0 := p.Binding();
    ghost var log0 := p.published;
    var i := 0;
    while i < |ops|
      invariant 0 <= i <= |ops|
      invariant p.Valid() && p.client == old(p.client)
      invariant p.Binding() == Run(p.client, classes, b0, ops[..i]).binding
      invariant p.published == log0 + Run(p.client, classes, b0, ops[..i]).published
    {
      RunSnoc(p.client, classes, b0, ops[..i], ops[i]);
      assert ops[..i + 1] == ops[..i] + [ops[i]];
      match ops[i] {
        case SetEventDispatcher(d, c) =>
          var _ := p.SetEventDispatcher(d, c, classes);
        case NotifyEvent(command, arguments, time) =>
          p.NotifyEvent(command, arguments, time);
        case Call(name, arguments, start, stop) =>
          var _ := p.Call(name, arguments, start, stop);
        case GetClient =>
          var _ := p.GetClient();
      }
      i := i + 1;
    }
    assert ops[..i] == ops;
  }
}
