/**
 * The slice of the PHP runtime the proxy relies on: values that may or may not
 * be objects, the declarations of classes (their methods and the interfaces
 * they implement) and thrown exceptions. Reflection (`is_object`,
 * `method_exists`, `ReflectionClass::implementsInterface`) becomes predicates
 * over these declarations.
 */
module Php {

  /**
   * A declared class: its fully qualified name, the names of its methods
   * (written in lower case, since PHP method names are case-insensitive) and
   * the fully qualified names of every interface it implements.
   */
  datatype ClassInfo = ClassInfo(name: string, methods: set<string>, interfaces: set<string>)

  /** An object: its identity and the class it is an instance of. */
  datatype ObjectInfo = ObjectInfo(id: nat, cls: ClassInfo)

  /**
   * A PHP value as far as the proxy inspects it: `null`, a scalar or array
   * (only its truthiness matters here), or an object.
   */
  datatype Value = Null | Scalar(truthy: bool) | Instance(obj: ObjectInfo)

  /** PHP's conversion to boolean, as used by `if ($value)`. */
  predicate Truthy(v: Value)
  {
    match v
    case Null => false
    case Scalar(t) => t
    case Instance(_) => true
  }

  /** `is_object($v)` */
  predicate IsObject(v: Value)
  {
    v.Instance?
  }

  /** `method_exists($v, $m)` for an object `$v` and a lower-case method name `$m`. */
  predicate MethodExists(v: Value, m: string)
  {
    v.Instance? && m in v.obj.cls.methods
  }

  /** `(new ReflectionClass($c))->implementsInterface($i)` for a declared class `$c`. */
  predicate ImplementsInterface(c: ClassInfo, i: string)
  {
    i in c.interfaces
  }

  /** A thrown exception: the fully qualified name of its class and its message. */
  datatype Thrown = Thrown(className: string, message: string)

  /** How a method that returns nothing ends: normally, or by throwing. */
  datatype Outcome = Completed | Threw(error: Thrown)

  /** The class thrown by `new \ReflectionClass($name)` when `$name` is not declared. */
  const ReflectionException := "ReflectionException"

  /** The message of that exception. */
  function MissingClassMessage(name: string): string
  {
    "Class \"" + name + "\" does not exist"
  }
}
