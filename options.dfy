/** The value of a computation that the C++ code leaves undefined on some inputs
    (a division by a zero length): `None` marks those inputs. */
module Options {

  datatype Option<+T> = None | Some(value: T)
}
