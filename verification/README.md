# DynamoDb client proxy of M6Web AwsBundle, in Dafny

The bundle wraps a DynamoDB client in a proxy
(`M6Web\Bundle\AwsBundle\Aws\DynamoDb\Proxy`). The constructor's type hint
`Client` is unqualified inside that namespace, so it names
`M6Web\Bundle\AwsBundle\Aws\DynamoDb\Client`; that class is not part of this
model. Any method called on the proxy
that it does not define itself reaches the magic `__call`, which does four things:

- it forwards the method name and arguments to the wrapped client unchanged;
- it measures how long the call took;
- it turns a `DynamoDbException` into the proxy's own `Exception` with the
  message `"Error calling the method <name> : <original message>"`;
- once an event dispatcher has been bound with `setEventDispatcher`, it
  publishes one event (command, execution time, arguments) on the topic
  `dynamodb.command` for every call that succeeds.

The model has four modules:

- `Wrappers` (`wrappers.dfy`): `Option` and `Result`.
- `Php` (`php.dfy`): the parts of PHP the proxy inspects. These are values
  that may be `null`, scalars or objects, declared classes with their methods
  and interfaces, and thrown exceptions. `is_object`, `method_exists` and
  `ReflectionClass::implementsInterface` are predicates over these.
- `ProxySpec` (`proxy_spec.dfy`): what each operation does, written as
  functions of the proxy's binding. The binding is either `Unobserved` or
  `Observed(dispatcher, eventClass)`. The functions are `Bind`, `Notify` and
  `Invoke`. `Step` and `Run` give the meaning of any sequence of operations.
  The lemmas state the properties of single calls and of sequences of calls.
  The lemmas about sequences (`ObservedIsPermanent`, `LatestBindingWins`,
  `BindingKeptWithoutBinds`, `RunKeepsBindingValid`, `UnboundProxyIsSilent`)
  are about `Run`. Each step of `Run` is what the postcondition of the
  matching `Proxy` method says, through the same `Bind`, `Notify` and
  `Invoke`. The method `DynamoDb.Execute` performs a list of operations on a
  `Proxy`, one method call each, and proves that the resulting binding and
  publications are those of `Run`. So the sequence lemmas hold of the class
  itself. `Run` consults one fixed table of declared classes, whereas
  `SetEventDispatcher` takes a table on each call; `Execute` passes the same
  table to every call.
- `DynamoDb` (`proxy.dfy`): class `Proxy`. It has the source's fields
  `client`, `eventDispatcher` and `eventClass`, plus a ghost log `published`
  of every `dispatch` call the proxy made. Each method's postcondition ties the
  new fields and log to the `ProxySpec` function for that operation.

The wrapped client is a value of type `Client`. It holds a function from
(method name, arguments) to `Returned(v)`, `DynamoDbError(message)` or
`OtherError(exception)`. The clock readings of `microtime(true)` are the
parameters `start` and `stop` of `Call`. The declared classes that
`ReflectionClass` looks names up in are the parameter `classes` of
`SetEventDispatcher`.

## Model

| member | source | states |
|---|---|---|
| `DynamoDb.Proxy.constructor` | src/M6Web/Bundle/AwsBundle/Aws/DynamoDb/Proxy.php:24-41 | the proxy holds exactly the client it was given, no dispatcher is bound, and nothing has been published |
| `DynamoDb.Proxy.GetClient` | src/M6Web/Bundle/AwsBundle/Aws/DynamoDb/Proxy.php:48-51 | returns the wrapped client field and changes nothing |
| `DynamoDb.Proxy.NotifyEvent` | src/M6Web/Bundle/AwsBundle/Aws/DynamoDb/Proxy.php:62-74 | appends to the dispatch log exactly what `Notify` yields for the current binding: nothing when unbound, one event when bound; the binding fields do not change |
| `DynamoDb.Proxy.SetEventDispatcher` | src/M6Web/Bundle/AwsBundle/Aws/DynamoDb/Proxy.php:84-97 | when every check of `Bind` passes, both fields are set together to the new dispatcher and class; otherwise it throws the exception `Bind` names and both fields keep their old values; the object invariant (both fields null or both set, and the dispatcher has `dispatch`) is kept |
| `DynamoDb.Proxy.Call` | src/M6Web/Bundle/AwsBundle/Aws/DynamoDb/Proxy.php:107-122 | returns or throws what `Invoke` gives for the client, the current binding and the elapsed time `stop - start`, and appends exactly its publications to the log |
| `ProxySpec.BindAcceptsExactlyValidBindings` | src/M6Web/Bundle/AwsBundle/Aws/DynamoDb/Proxy.php:84-96 | binding succeeds if and only if the dispatcher is an object with a `dispatch` method and the event class is declared and implements DispatcherInterface; the installed binding is then (that object, that class name), independent of any earlier binding |
| `ProxySpec.BindChecksDispatcherFirst` | src/M6Web/Bundle/AwsBundle/Aws/DynamoDb/Proxy.php:86-88 | a non-object or an object without `dispatch` is refused with "The EventDispatcher must be an object and implement a dispatch method", whatever the event class |
| `ProxySpec.BindRejectsForeignEventClass` | src/M6Web/Bundle/AwsBundle/Aws/DynamoDb/Proxy.php:90-93 | with a valid dispatcher, a declared event class that does not implement DispatcherInterface is refused with the proxy's exception and the class-naming message |
| `ProxySpec.EventClassMessageNamesClass` | src/M6Web/Bundle/AwsBundle/Aws/DynamoDb/Proxy.php:92 | the refusal message embeds the event class name right after "The Event class : " |
| `ProxySpec.NotifyPublishesOnceWhenObserved` | src/M6Web/Bundle/AwsBundle/Aws/DynamoDb/Proxy.php:64-72 | no publication when unbound; exactly one when bound, sent to the bound dispatcher on topic `dynamodb.command`, with an event of the bound class that carries the given command, time and arguments |
| `ProxySpec.InvokeIsTransparentOnSuccess` | src/M6Web/Bundle/AwsBundle/Aws/DynamoDb/Proxy.php:110-115 | when the client's method returns `v` for the given name and arguments, the proxy returns that same `v` and publishes exactly what `notifyEvent` publishes for that name, those arguments and the elapsed time |
| `ProxySpec.InvokeNotifiesIffSucceededWhileObserved` | src/M6Web/Bundle/AwsBundle/Aws/DynamoDb/Proxy.php:109-121 | a call publishes at most once; it publishes exactly when a client is present, its method returned and a dispatcher is bound; the published command and arguments are the call's own |
| `ProxySpec.InvokeTranslatesDynamoDbErrors` | src/M6Web/Bundle/AwsBundle/Aws/DynamoDb/Proxy.php:116-117 | a DynamoDbException with message `m` becomes the proxy's exception with message "Error calling the method " + name + " : " + m, and nothing is published |
| `ProxySpec.InvokePassesOtherErrorsThrough` | src/M6Web/Bundle/AwsBundle/Aws/DynamoDb/Proxy.php:111-118 | any other exception from the client reaches the caller unchanged, and nothing is published |
| `ProxySpec.InvokeWithoutClientFails` | src/M6Web/Bundle/AwsBundle/Aws/DynamoDb/Proxy.php:119-121 | with no client the call throws "Cant connect to DynamoDb", calls nothing and publishes nothing |
| `ProxySpec.CallErrorMessageParts` | src/M6Web/Bundle/AwsBundle/Aws/DynamoDb/Proxy.php:117 | the translated message is the fixed prefix, then the method name, then " : ", then the original message |
| `ProxySpec.CallErrorMessageKeepsMessage` | src/M6Web/Bundle/AwsBundle/Aws/DynamoDb/Proxy.php:117 | for a given method name, the translated message determines the original exception's message; it is the only part of the original exception that survives |
| `ProxySpec.ObservedIsPermanent` | src/M6Web/Bundle/AwsBundle/Aws/DynamoDb/Proxy.php:84-97 | once a dispatcher is bound, no sequence of operations returns the proxy to the unbound state |
| `ProxySpec.LatestBindingWins` | src/M6Web/Bundle/AwsBundle/Aws/DynamoDb/Proxy.php:95-96 | after a sequence of operations the binding is the one installed by the last successful `setEventDispatcher`, whatever was bound before it |
| `ProxySpec.BindingKeptWithoutBinds` | src/M6Web/Bundle/AwsBundle/Aws/DynamoDb/Proxy.php:84-97 | operations that include no successful `setEventDispatcher` leave the binding as it was, failed binding attempts included |
| `ProxySpec.RunKeepsBindingValid` | src/M6Web/Bundle/AwsBundle/Aws/DynamoDb/Proxy.php:62-97 | in the model, where `new $className()` always succeeds, the checks made at bind time suffice: from a valid binding, every later binding is valid, and every publication goes on topic `dynamodb.command` to a dispatcher with `dispatch`, with an event of a declared class implementing DispatcherInterface |
| `ProxySpec.RunSnoc` | src/M6Web/Bundle/AwsBundle/Aws/DynamoDb/Proxy.php:62-122 | performing one more operation after a list of operations is one more step from the binding that list left, and its publications come after theirs |
| `DynamoDb.Execute` | src/M6Web/Bundle/AwsBundle/Aws/DynamoDb/Proxy.php:62-122 | calling the proxy's methods for a list of operations, in order, leaves the binding `Run` gives and appends exactly `Run`'s publications to the log; the client field does not change and the object invariant is kept |
| `ProxySpec.UnboundProxyIsSilent` | src/M6Web/Bundle/AwsBundle/Aws/DynamoDb/Proxy.php:62-74 | a proxy on which no `setEventDispatcher` has succeeded publishes nothing, whatever is called on it, and stays unbound |

## Left out

- The wrapped client is not part of this model. It is modelled only by what each method does for a given name and arguments. Dispatching through `call_user_func_array` is not modelled beyond passing the name and arguments unchanged.
- The client is a pure function of (method name, arguments), so two identical calls through the model return the same result. The real DynamoDB client keeps state (tables change, requests fail intermittently) and makes no such promise. No lemma relies on this.
- Re-entrant calls are not modelled: the model's client cannot call back into the proxy. In the source, `notifyEvent` reads `$eventDispatcher` and `$eventClass` after the client call has returned. So a client method or listener that calls `setEventDispatcher` on the same proxy during the call changes which binding the notification uses. `Invoke` always uses the binding from before the call.
- `DynamoDbError` stands for any instance of `DynamoDbException` or of a subclass, as `catch (DynamoDbException $e)` matches by `instanceof`. `OtherError` stands for every other throwable. Which case applies is decided by the client's outcome, not by a class hierarchy.
- The translated exception keeps only the original message. The original exception's class (which subclass of `DynamoDbException`), its code and the object itself are lost. The source passes no previous exception, so nothing is chained.
- `microtime(true)` is not modelled. The two clock readings are parameters, and the event's execution time is their exact difference as a real number. The source subtracts two floats, which rounds; that rounding is not modelled. The source does not guarantee that this difference is non-negative, because `microtime` reads the wall clock. So the model does not assume it either.
- PHP routes a call to `__call` only when its name (compared case-insensitively) is not a public method of the proxy. The model's `Call` is `__call` itself. It does not model that routing.
- The event dispatcher's own behaviour is external. The model records each `dispatch` call in the ghost log and assumes `dispatch` returns normally. An exception thrown by `dispatch`, by the event class's constructor or by its setters is not modelled. Inside the `try` block, such an exception would also be subject to the `DynamoDbException` translation.
- `new $className()` is modelled as building an event with the class name and the three values set through its setters. The event object's identity is not modelled.
- The checks of `setEventDispatcher` do not ensure that the event class can be instantiated with no arguments, and the model assumes it can. `ReflectionClass` accepts an interface, an abstract class or an enum, and `implementsInterface` is true for DispatcherInterface itself and for interfaces extending it. A class whose constructor has required parameters also passes both checks. For such a binding, `new $className()` throws an `Error` on every later successful call. `catch (DynamoDbException $e)` does not catch it, so the caller gets that `Error` instead of the client's result, after the DynamoDB operation has run. The model instead returns the result with one publication.
- `ReflectionClass` is modelled as a lookup in the table of declared classes. The name must match exactly; PHP's case-insensitive class names and leading backslash are not modelled. The model also assumes that the interface `M6Web\Bundle\AwsBundle\Event\DispatcherInterface` is declared. An object passed as `$eventClass` is not modelled; the event class is always a name.
- The message of the `ReflectionException` for an undeclared event class follows PHP 8 (`Class "X" does not exist`). Other PHP versions word it differently.
- The class `M6Web\Bundle\AwsBundle\Aws\DynamoDb\Exception` is not part of this model. The unqualified `Exception` in the source names this class. The model records only the class name and the message of what is thrown.
- The code and previous exception of the exceptions the proxy throws are not modelled. The source sets neither.
- Concurrency is not modelled: the source is single-threaded and has no in-file logic for it.
