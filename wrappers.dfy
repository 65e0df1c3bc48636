/** Optional values: `None` stands for the JavaScript `null` and `NaN` results of the
    motion-estimation code. */
module Wrappers {

  datatype Option<+T> = None | Some(value: T)
}
