/** The small part of the Python runtime that the client's code relies on:
    optional values, the exceptions it raises or lets through, and `dict.get`. */
module PyRuntime {

  /** `None` or a value, as a Python `Optional[T]`. */
  datatype Option<+T> = None | Some(value: T) {
    function GetOr(default: T): T {
      match this
      case Some(v) => v
      case None => default
    }
  }

  /** The exceptions the modelled code raises, or lets propagate from code it calls. */
  datatype PyError =
    | RuntimeError(message: string)
    | KeyError(key: string)
    | TypeError(message: string)
    | IndexError(message: string)
    | AttributeError(name: string)
    | ModuleNotFoundError(moduleName: string)
    | ImportError(name: string)
    | NameError(name: string)
    | SyntaxError(message: string)
    | NotImplementedError
    | UnboundLocalError(name: string)
    | JSONDecodeError
    | AssertionError
      /** An exception raised inside a service class's own constructor or method. */
    | ServiceError(className: string, operation: string)
      /** An exception raised by a call into a foreign SDK. */
    | SdkError(operation: string)

  /** A value, or the exception that ended the computation. */
  datatype Result<+T> = Ok(value: T) | Err(error: PyError)

  /** Message of the `TypeError` raised by `str + None`. */
  const ConcatNoneMessage := "can only concatenate str (not \"NoneType\") to str"

  /** `d.get(k)`: the value under `k`, or `None` when `k` is absent. */
  function MapGet<K, V>(m: map<K, V>, k: K): (r: Option<V>)
    ensures r.Some? <==> k in m
    ensures r.Some? ==> r.value == m[k]
  {
    if k in m then Some(m[k]) else None
  }
}
