/** Optional values: the model's stand-in for Java's nullable references. */
module Wrappers {

  datatype Option<+T> = None | Some(value: T)

  /** How a Java method ends: it returns a (possibly null) value, or an exception escapes. */
  datatype Outcome<+T> = Returned(result: Option<T>) | Threw

  /** com.hmdp.dto.Result, the services' reply: success with optional data, or a
      failure with its message. */
  datatype Result<+T> = Ok(data: Option<T>) | Fail(errorMsg: string)
}
