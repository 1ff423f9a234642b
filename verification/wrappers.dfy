/** The optional value used for the cells of the board and for the winner:
    `None` stands for the `null` of the game component. */
module Wrappers {

  datatype Option<+T> = None | Some(value: T)
}
