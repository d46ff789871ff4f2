/** The optional value used for answers of the outside world that can fail. */
module Wrappers {

  /** `None` stands for a collaborator call that failed. */
  datatype Option<+T> = None | Some(value: T)
}
