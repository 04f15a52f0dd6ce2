/**
 Values shared by every part of the runtime model: optional values, results
 carrying the errors the runtime throws, the JavaScript values passed around as
 options, class references and lookup tokens.
 */
module Common {

  /** `undefined` (None) or a value (Some). */
  datatype Option<+T> = None | Some(value: T) {

    /** The value, or `default` when undefined: the `x || default` idiom on an object-valued x. */
    function GetOr(default: T): T {
      match this
      case Some(v) => v
      case None => default
    }
  }

  /** An exception raised by the runtime or by user code the runtime calls. */
  datatype Error =
    | InvalidProvider            // thrown by ProvidersService.register
    | ModuleInstanceNotDefined   // thrown (and caught) inside Core.initModules
    | Thrown(message: string)    // thrown by a module's own init hook

  /** The outcome of an operation that may throw. */
  datatype Result<+T> = Ok(value: T) | Err(error: Error)

  /** A JavaScript value of the kind passed as module options and core metadata. */
  datatype Json =
    | Null
    | Bool(b: bool)
    | Num(n: int)
    | Str(s: string)
    | Arr(items: seq<Json>)
    | Obj(fields: map<string, Json>)

  /** The object literal `{}`. */
  const EmptyObject: Json := Obj(map[])

  /**
   A class, that is a constructor function. `id` is its identity, `name` its
   `name` property and `base` the class it extends: metadata lookups that walk
   the prototype chain continue there.
   */
  datatype ClassRef = ClassRef(id: nat, name: string, base: Option<ClassRef>)

  /** An opaque lookup key: a class, or any other value compared by identity. */
  datatype Token = ClassToken(cls: ClassRef) | OpaqueToken(id: nat)
}
