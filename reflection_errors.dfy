/**
 * The library's error kinds: a root (`ReflectionError`) with an object family (`ObjError`) and
 * a function family (`FuncError`); each leaf carries one fixed message and no payload.
 */
module ReflectionErrors {

  datatype ReflectionError =
    | ObjNotObjectError
    | ObjMethodNotExistError
    | ObjPropertyNotExistError
    | FuncNotFunctionError
  {
    /** Leaves whose prototype chain passes through `ObjError.prototype`. */
    predicate IsObjError()
    {
      !FuncNotFunctionError?
    }

    /** Leaves whose prototype chain passes through `FuncError.prototype`. */
    predicate IsFuncError()
    {
      FuncNotFunctionError?
    }

    /** The fixed `message` each leaf's prototype carries. */
    function Message(): string
    {
      match this
      case ObjNotObjectError => "Expected an object or function."
      case ObjMethodNotExistError => "The method does not exist on the object or function."
      case ObjPropertyNotExistError => "The property does not exist on the object or function."
      case FuncNotFunctionError => "Expected a function."
    }
  }

  /**
   * What an operation can throw: one of the library's errors, or the host's `TypeError` raised
   * when a callable's source text matches neither signature pattern (`null[1]`).
   */
  datatype Thrown = Reflection(error: ReflectionError) | HostTypeError

  /** Every leaf belongs to exactly one family, and its message tells which leaf it is. */
  lemma MessagesIdentifyErrors(a: ReflectionError, b: ReflectionError)
    ensures a.IsObjError() != a.IsFuncError()
    ensures |a.Message()| > 0
    ensures a.Message() == b.Message() ==> a == b
  {
    // The four messages have four different lengths.
    assert |ObjNotObjectError.Message()| == 31;
    assert |ObjMethodNotExistError.Message()| == 52;
    assert |ObjPropertyNotExistError.Message()| == 54;
    assert |FuncNotFunctionError.Message()| == 20;
  }
}
