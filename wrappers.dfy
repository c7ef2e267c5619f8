/** Optional values: `None` stands for "nothing was produced", for example a
    filter label that selects no endpoint or an extraction that threw. */
module Wrappers {

  datatype Option<+T> = None | Some(value: T)
}
