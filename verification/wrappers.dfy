/** The nullable references of the game (a room's neighbours, a participant's
    room, a prompt still to play) as an explicit option. */
module Wrappers {

  datatype Option<+T> = None | Some(value: T)
}
