/** The fixed size cl-helper.c gives its name buffers: the first block of
    the line reader, and the buffers platform and device names are queried
    into. */
module NameBuffer {
  const MAX_NAME_LEN: nat := 1000
}
