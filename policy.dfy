/** The steering policy seen from the game logic: an opaque value.  Its numeric
    inference, training and Gaussian mutation are not part of this model; the
    operations that produce new policies are passed in as functions. */
module Policy {
  type Network(==)
}
