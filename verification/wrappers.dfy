/** The optional value used for every outcome that the service may not obtain:
    a video id the URL does not contain, a title, a transcript, a model reply. */
module Wrappers {

  /** `None` stands for Python's `None` returned by a helper. */
  datatype Option<+T> = None | Some(value: T)
}
